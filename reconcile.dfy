/**
 * updateEmbed: one tick of the bot. It resolves the channel, reads the stored
 * message id from `embed.json`, probes every server, builds the embed, and
 * then either edits the stored message in place or sends a new message and
 * stores its id. A stored id whose message cannot be fetched or edited is
 * cleared to null, persisted, and replaced by a freshly sent message.
 */
module Reconcile {
  import opened Wrappers
  import opened Probe
  import opened TimeFormat
  import opened Embed

  /** A message id given out by the chat platform. */
  type MessageId = nat

  /** The record file `embed.json`: the stored id, and every value written to it, in order. */
  class EmbedStore {
    var embedId: Option<MessageId>
    var writes: seq<Option<MessageId>>

    /** The file holds the last value written to it. */
    ghost predicate Valid()
      reads this
    {
      writes != [] ==> embedId == writes[|writes| - 1]
    }

    constructor (initial: Option<MessageId>)
      ensures Valid()
      ensures embedId == initial && writes == []
    {
      embedId := initial;
      writes := [];
    }

    /** `JSON.parse(fs.readFileSync(embedLogPath)).embedId` */
    method Load() returns (id: Option<MessageId>)
      ensures id == embedId
    {
      id := embedId;
    }

    /** `fs.writeFileSync(embedLogPath, JSON.stringify(embedData))` with `embedData.embedId = id` */
    method Save(id: Option<MessageId>)
      requires Valid()
      modifies this
      ensures Valid()
      ensures embedId == id && writes == old(writes) + [id]
    {
      embedId := id;
      writes := writes + [id];
    }
  }


  /**
   * How the platform answers one send: the message is posted and its id
   * comes back; the send is refused and nothing is posted; or the message is
   * posted but the call still throws (a lost reply), so its id never comes
   * back.
   */
  datatype SendResult = Accepted | Rejected | Lost

  /**
   * The destination channel as the bot sees it: whether it resolves to a
   * text channel, whether the bot may edit there, the messages in it with
   * their embeds, the id the platform gives the next message, and how many
   * messages the platform posted and edited.
   */
  class Channel {
    var reachable: bool
    var canEdit: bool
    var messages: map<MessageId, Document>
    var nextId: MessageId
    var sends: nat
    var edits: nat

    /** Every id in the channel was given out before, so the next one is new. */
    ghost predicate Valid()
      reads this
    {
      forall id :: id in messages ==> id < nextId
    }

    constructor (reachable: bool, canEdit: bool)
      ensures Valid()
      ensures this.reachable == reachable && this.canEdit == canEdit
      ensures messages == map[] && nextId == 0 && sends == 0 && edits == 0
    {
      this.reachable := reachable;
      this.canEdit := canEdit;
      messages := map[];
      nextId := 0;
      sends := 0;
      edits := 0;
    }

    /**
     * `channel.send({ embeds: [doc] })`, answered by the platform with
     * `result`: the id comes back only when the send is accepted; unless it
     * is refused, the embed is posted under a never-used id.
     */
    method Send(doc: Document, result: SendResult) returns (id: Option<MessageId>)
      requires Valid()
      modifies this
      ensures Valid()
      ensures id.Some? <==> result == Accepted
      ensures result == Accepted ==> id == Some(old(nextId))
      ensures result != Rejected ==> old(nextId) !in old(messages)
      ensures result != Rejected ==> messages == old(messages)[old(nextId) := doc] && nextId == old(nextId) + 1
      ensures result != Rejected ==> sends == old(sends) + 1
      ensures result == Rejected ==> unchanged(this)
      ensures edits == old(edits) && reachable == old(reachable) && canEdit == old(canEdit)
    {
      if result == Rejected {
        return None;
      }
      id := if result == Accepted then Some(nextId) else None;
      messages := messages[nextId := doc];
      nextId := nextId + 1;
      sends := sends + 1;
    }

    /**
     * `channel.messages.fetch(id)` then `message.edit({ embeds: [doc] })`: the
     * message's embed is replaced, or, when the message is gone or may not be
     * edited, the call fails and changes nothing.
     */
    method FetchAndEdit(id: MessageId, doc: Document) returns (ok: bool)
      requires Valid()
      modifies this
      ensures Valid()
      ensures ok <==> old(canEdit) && id in old(messages)
      ensures ok ==> messages == old(messages)[id := doc] && edits == old(edits) + 1
      ensures !ok ==> unchanged(this)
      ensures sends == old(sends) && nextId == old(nextId)
      ensures reachable == old(reachable) && canEdit == old(canEdit)
    {
      ok := canEdit && id in messages;
      if ok {
        messages := messages[id := doc];
        edits := edits + 1;
      }
    }
  }

  /** How one tick ended. */
  datatype TickOutcome =
    | InvalidChannel                          // channel missing or not text-based: nothing read or written
    | EmbedFailed                             // building the embed threw: nothing sent or written
    | Edited(id: MessageId)                   // the stored message now shows the new embed
    | Created(id: MessageId)                  // no stored id: a new message was sent and its id stored
    | Recreated(staleId: MessageId, id: MessageId)  // the stored id failed: cleared, then a new message stored
    | SendFailed                              // the last send attempt threw: no id stored

  /** The embed one tick builds from the probe answers, one answer per configured server. */
  function TickDocument(config: ServerConfig, mainResponses: seq<Option<ApiResponse>>,
                        additionalResponses: seq<Option<ApiResponse>>, now: LocalTime, sameDay: bool): (doc: Option<Document>)
    requires |mainResponses| == |config.mainServers|
    ensures doc.Some? <==>
      (|additionalResponses| >= 2 && FieldValueAccepted(MainServersField(config.mainServers, GetAllStatuses(mainResponses))))
  {
    BuildEmbed(config, GetAllStatuses(mainResponses), GetAllStatuses(additionalResponses), now, sameDay)
  }

  /** What one tick reads and changes: the record file and the channel's messages and counters. */
  datatype World = World(embedId: Option<MessageId>, writes: seq<Option<MessageId>>,
                         messages: map<MessageId, Document>, nextId: MessageId, sends: nat, edits: nat)

  ghost function Observe(store: EmbedStore, channel: Channel): World
    reads store, channel
  {
    World(store.embedId, store.writes, channel.messages, channel.nextId, channel.sends, channel.edits)
  }

  /** The record holds its last write, and the platform never reuses an id. */
  ghost predicate Consistent(w: World) {
    && (w.writes != [] ==> w.embedId == w.writes[|w.writes| - 1])
    && (forall id :: id in w.messages ==> id < w.nextId)
  }

  /** `Consistent` is what the two classes' `Valid` say about the state they hold. */
  lemma ObserveConsistent(store: EmbedStore, channel: Channel)
    ensures Consistent(Observe(store, channel)) <==> store.Valid() && channel.Valid()
  {
  }

  /** One send on values: the id that comes back, and the channel after the platform's answer. */
  function Post(w: World, doc: Document, result: SendResult): (r: (Option<MessageId>, World))
    ensures r.0.Some? <==> result == Accepted
    ensures r.0.Some? ==> r.0.value == w.nextId
    ensures r.1.embedId == w.embedId && r.1.writes == w.writes && r.1.edits == w.edits
    ensures w.messages.Keys <= r.1.messages.Keys
    ensures result != Rejected ==> w.nextId in r.1.messages && r.1.messages[w.nextId] == doc
    ensures r.1.sends == w.sends + (if result == Rejected then 0 else 1)
  {
    if result == Rejected then (None, w)
    else
      (if result == Accepted then Some(w.nextId) else None,
       w.(messages := w.messages[w.nextId := doc], nextId := w.nextId + 1, sends := w.sends + 1))
  }

  /**
   * The try/catch with a stored id: its message is edited when it is there
   * and may be edited; otherwise the id is cleared and persisted, and one
   * send, answered with `firstSend`, is attempted.
   */
  function RefreshStep(w: World, id: MessageId, canEdit: bool, firstSend: SendResult, doc: Document): (r: (TickOutcome, World))
    ensures r.0.Edited? || r.0.Recreated? || r.0 == SendFailed
    ensures r.0.Edited? <==> id in w.messages && canEdit
    ensures r.0.Edited? ==> r.0.id == id && r.1.writes == w.writes && r.1.sends == w.sends
    ensures r.0.Recreated? <==> !(id in w.messages && canEdit) && firstSend == Accepted
    ensures r.0.Recreated? ==> r.0.staleId == id && r.1.writes == w.writes + [None, Some(r.0.id)]
    ensures r.0 == SendFailed ==> r.1.writes == w.writes + [None] && r.1.embedId.None?
  {
    if id in w.messages && canEdit then
      (Edited(id), w.(messages := w.messages[id := doc], edits := w.edits + 1))
    else
      var (sent, w1) := Post(w.(embedId := None, writes := w.writes + [None]), doc, firstSend);
      if sent.Some? then (Recreated(id, sent.value), w1.(embedId := sent, writes := w1.writes + [sent]))
      else (SendFailed, w1)
  }

  /**
   * The try/catch without a stored id: a send is attempted and, when it
   * throws, attempted once more; `firstSend` and `retrySend` are the
   * platform's answers.
   */
  function CreateStep(w: World, firstSend: SendResult, retrySend: SendResult, doc: Document): (r: (TickOutcome, World))
    ensures r.0.Created? || r.0 == SendFailed
    ensures r.0.Created? <==> firstSend == Accepted || retrySend == Accepted
    ensures r.0.Created? ==> r.1.embedId == Some(r.0.id) && r.1.writes == w.writes + [Some(r.0.id)]
    ensures r.0 == SendFailed ==> r.1.embedId == w.embedId && r.1.writes == w.writes
    // the retry is attempted only when the first send threw
    ensures r.1.sends == w.sends + (if firstSend == Rejected then 0 else 1)
                                 + (if firstSend != Accepted && retrySend != Rejected then 1 else 0)
    ensures r.1.edits == w.edits
  {
    var (sent, w1) := Post(w, doc, firstSend);
    var (resent, w2) := if sent.Some? then (sent, w1) else Post(w1, doc, retrySend);
    if resent.Some? then (Created(resent.value), w2.(embedId := resent, writes := w2.writes + [resent]))
    else (SendFailed, w2)
  }

  /** The edit-or-create step on values, told apart by the stored id. */
  function ReconcileStep(w: World, canEdit: bool, firstSend: SendResult, retrySend: SendResult, doc: Document): (r: (TickOutcome, World))
    ensures r.0 != InvalidChannel && r.0 != EmbedFailed
    ensures r.0 == SendFailed <==> r.1.embedId.None?
    ensures r.0 != SendFailed ==> r.1.embedId == Some(r.0.id)
    // the record's history only grows, and no message is removed
    ensures w.writes <= r.1.writes
    ensures w.messages.Keys <= r.1.messages.Keys
  {
    match w.embedId
    case Some(id) => RefreshStep(w, id, canEdit, firstSend, doc)
    case None => CreateStep(w, firstSend, retrySend, doc)
  }

  /** The try/catch with a stored id (index.js lines 91-93 and 99-107). */
  method RefreshStored(store: EmbedStore, channel: Channel, id: MessageId, doc: Document, firstSend: SendResult)
    returns (outcome: TickOutcome)
    requires store.Valid() && channel.Valid()
    requires store.embedId == Some(id)
    modifies store, channel
    ensures store.Valid() && channel.Valid()
    ensures channel.reachable == old(channel.reachable) && channel.canEdit == old(channel.canEdit)
    ensures (outcome, Observe(store, channel)) == RefreshStep(old(Observe(store, channel)), id, channel.canEdit, firstSend, doc)
    // in particular, a stored id that works: exactly one edit, no send, the record untouched
    ensures id in old(channel.messages) && channel.canEdit ==>
      && outcome == Edited(id)
      && channel.edits == old(channel.edits) + 1 && channel.sends == old(channel.sends)
      && store.embedId == Some(id) && store.writes == old(store.writes)
    // and an id whose fetch or edit fails: null persisted, then exactly one send, and the new id stored
    ensures !(id in old(channel.messages) && channel.canEdit) && firstSend == Accepted ==>
      && outcome == Recreated(id, old(channel.nextId))
      && old(channel.nextId) !in old(channel.messages)
      && store.writes == old(store.writes) + [None, Some(old(channel.nextId))]
      && store.embedId == Some(old(channel.nextId))
      && channel.sends == old(channel.sends) + 1 && channel.edits == old(channel.edits)
  {
    var edited := channel.FetchAndEdit(id, doc);
    if edited {
      return Edited(id);
    }
    // the catch block: forget the stale id before sending a replacement
    store.Save(None);
    var sent := channel.Send(doc, firstSend);
    if sent.None? {
      return SendFailed;
    }
    store.Save(sent);
    outcome := Recreated(id, sent.value);
  }

  /** The try/catch without a stored id (index.js lines 94-98 and 105-107). */
  method CreateNew(store: EmbedStore, channel: Channel, doc: Document, firstSend: SendResult, retrySend: SendResult)
    returns (outcome: TickOutcome)
    requires store.Valid() && channel.Valid()
    requires store.embedId.None?
    modifies store, channel
    ensures store.Valid() && channel.Valid()
    ensures channel.reachable == old(channel.reachable) && channel.canEdit == old(channel.canEdit)
    ensures (outcome, Observe(store, channel)) == CreateStep(old(Observe(store, channel)), firstSend, retrySend, doc)
  {
    var sent := channel.Send(doc, firstSend);
    if sent.None? {
      // a send that threw inside the try block is attempted once more by the catch block
      sent := channel.Send(doc, retrySend);
    }
    if sent.None? {
      return SendFailed;
    }
    store.Save(sent);
    outcome := Created(sent.value);
  }

  /**
   * The try/catch of updateEmbed: edit the stored message, or send a new one
   * and store its id; a stored id that fails is cleared and persisted before
   * the replacement is sent. Both the try block and the catch block branch
   * on the stored id, so the two cases are taken apart here.
   */
  method EditOrCreate(store: EmbedStore, channel: Channel, embedId: Option<MessageId>, doc: Document,
                      firstSend: SendResult, retrySend: SendResult)
    returns (outcome: TickOutcome)
    requires store.Valid() && channel.Valid()
    requires embedId == store.embedId
    modifies store, channel
    ensures store.Valid() && channel.Valid()
    ensures channel.reachable == old(channel.reachable) && channel.canEdit == old(channel.canEdit)
    ensures (outcome, Observe(store, channel)) ==
      ReconcileStep(old(Observe(store, channel)), channel.canEdit, firstSend, retrySend, doc)
  {
    if embedId.Some? {
      outcome := RefreshStored(store, channel, embedId.value, doc, firstSend);
    } else {
      outcome := CreateNew(store, channel, doc, firstSend, retrySend);
    }
  }

  /**
   * updateEmbed. The probe answers are given one per configured server, in
   * configuration order; `now` and `sameDay` stand for the clock, and
   * `firstSend` and `retrySend` for the platform's answers to the sends.
   */
  method UpdateEmbed(config: ServerConfig, store: EmbedStore, channel: Channel,
                     mainResponses: seq<Option<ApiResponse>>, additionalResponses: seq<Option<ApiResponse>>,
                     now: LocalTime, sameDay: bool, firstSend: SendResult, retrySend: SendResult)
    returns (outcome: TickOutcome)
    requires store.Valid() && channel.Valid()
    requires |mainResponses| == |config.mainServers|
    requires |additionalResponses| == |config.additionalInformation|
    modifies store, channel
    ensures store.Valid() && channel.Valid()
    ensures channel.reachable == old(channel.reachable) && channel.canEdit == old(channel.canEdit)
    // an unusable channel aborts the tick before anything is read or written
    ensures !old(channel.reachable) ==> outcome == InvalidChannel && unchanged(store) && unchanged(channel)
    // too few additional servers: building the embed throws before any channel operation
    ensures old(channel.reachable) && |config.additionalInformation| < 2 ==>
      outcome == EmbedFailed && unchanged(store) && unchanged(channel)
    ensures old(channel.reachable) && config.mainServers == [] ==>
      outcome == EmbedFailed && unchanged(store) && unchanged(channel)
    // the same for a Main Servers value `addFields` refuses
    ensures old(channel.reachable) && TickDocument(config, mainResponses, additionalResponses, now, sameDay).None? ==>
      outcome == EmbedFailed && unchanged(store) && unchanged(channel)
    // otherwise the embed of this tick is edited in or sent
    ensures var doc := TickDocument(config, mainResponses, additionalResponses, now, sameDay);
      old(channel.reachable) && doc.Some? ==>
      (outcome, Observe(store, channel)) ==
        ReconcileStep(old(Observe(store, channel)), channel.canEdit, firstSend, retrySend, doc.value)
  {
    if !channel.reachable {
      return InvalidChannel;
    }
    var embedId := store.Load();
    var embed := TickDocument(config, mainResponses, additionalResponses, now, sameDay);
    if embed.None? {
      return EmbedFailed;
    }
    outcome := EditOrCreate(store, channel, embedId, embed.value, firstSend, retrySend);
  }

  /** A step keeps the record and the channel consistent. */
  lemma ReconcileStepConsistent(w: World, canEdit: bool, firstSend: SendResult, retrySend: SendResult, doc: Document)
    requires Consistent(w)
    ensures Consistent(ReconcileStep(w, canEdit, firstSend, retrySend, doc).1)
  {
    match w.embedId
    case Some(id) =>
      if !(id in w.messages && canEdit) {
        var w0 := w.(embedId := None, writes := w.writes + [None]);
        assert Consistent(Post(w0, doc, firstSend).1);
      }
    case None =>
      assert Consistent(Post(w, doc, firstSend).1);
  }

  /**
   * Whenever a step gets the embed out, the stored id names a message that
   * shows it. A step whose last send throws leaves no id stored, edits
   * nothing and removes no message; when every attempt was refused, the
   * channel is as it was.
   */
  lemma StoredIdShowsDocument(w: World, canEdit: bool, firstSend: SendResult, retrySend: SendResult, doc: Document)
    ensures var (outcome, w') := ReconcileStep(w, canEdit, firstSend, retrySend, doc);
      (outcome.Edited? || outcome.Created? || outcome.Recreated?) ==>
        w'.embedId == Some(outcome.id) && outcome.id in w'.messages && w'.messages[outcome.id] == doc
    ensures var (outcome, w') := ReconcileStep(w, canEdit, firstSend, retrySend, doc);
      outcome == SendFailed ==>
        w'.embedId.None? && w'.edits == w.edits && w.messages.Keys <= w'.messages.Keys
    ensures var (outcome, w') := ReconcileStep(w, canEdit, firstSend, retrySend, doc);
      outcome == SendFailed && firstSend == Rejected && retrySend == Rejected ==>
        w'.messages == w.messages && w'.nextId == w.nextId && w'.sends == w.sends
  {
  }

  /**
   * Idempotence: with a stored id whose message is there and may be edited,
   * every step edits that one message, sends nothing and leaves the record
   * alone, so the next step does the same.
   */
  lemma EditIsIdempotent(w: World, firstSend: SendResult, retrySend: SendResult, doc: Document)
    requires w.embedId.Some? && w.embedId.value in w.messages
    ensures var (first, w1) := ReconcileStep(w, true, firstSend, retrySend, doc);
      var (second, w2) := ReconcileStep(w1, true, firstSend, retrySend, doc);
      && first == Edited(w.embedId.value) && second == first
      && w2.embedId == w.embedId && w2.writes == w.writes
      && w2.sends == w.sends && w2.edits == w.edits + 2 && w2.nextId == w.nextId
      && w2.messages == w.messages[w.embedId.value := doc]
  {
  }

  /**
   * Self-healing: a stored id whose message is gone or may not be edited is
   * cleared (null is written first), one new message is sent under an id the
   * channel never held, and from the next step on that message is edited in
   * place.
   */
  lemma StaleIdHeals(w: World, canEdit: bool, retrySend: SendResult, doc: Document)
    requires Consistent(w)
    requires w.embedId.Some? && !(w.embedId.value in w.messages && canEdit)
    ensures var (first, w1) := ReconcileStep(w, canEdit, Accepted, retrySend, doc);
      var (second, w2) := ReconcileStep(w1, true, Accepted, retrySend, doc);
      && first == Recreated(w.embedId.value, w.nextId) && w.nextId !in w.messages
      && w1.writes == w.writes + [None, Some(w.nextId)] && w1.embedId == Some(w.nextId)
      && w1.sends == w.sends + 1 && w1.edits == w.edits
      && w1.messages == w.messages[w.nextId := doc]
      && second == Edited(w.nextId) && w2.sends == w1.sends
  {
  }

  /**
   * With no stored id, a send accepted in the try block posts one message and
   * its id is stored; the catch block is never reached.
   */
  lemma FirstSendCreates(w: World, canEdit: bool, retrySend: SendResult, doc: Document)
    requires w.embedId.None?
    ensures var (outcome, w') := ReconcileStep(w, canEdit, Accepted, retrySend, doc);
      && outcome == Created(w.nextId)
      && w'.messages == w.messages[w.nextId := doc] && w'.sends == w.sends + 1 && w'.edits == w.edits
      && w'.embedId == Some(w.nextId) && w'.writes == w.writes + [Some(w.nextId)]
  {
  }

  /**
   * With no stored id, a send refused in the try block is made good by the
   * catch block's send: one message is posted and its id stored.
   */
  lemma RetryAfterRefusedSend(w: World, canEdit: bool, doc: Document)
    requires w.embedId.None?
    ensures var (outcome, w') := ReconcileStep(w, canEdit, Rejected, Accepted, doc);
      && outcome == Created(w.nextId)
      && w'.messages == w.messages[w.nextId := doc] && w'.sends == w.sends + 1
      && w'.embedId == Some(w.nextId) && w'.writes == w.writes + [Some(w.nextId)]
  {
  }

  /**
   * With no stored id, a send posted but whose reply is lost is sent again:
   * the channel ends with two copies of the embed, and only the second is
   * stored, so the first is never edited again.
   */
  lemma LostReplyLeavesOrphan(w: World, canEdit: bool, doc: Document)
    requires Consistent(w) && w.embedId.None?
    ensures var (outcome, w') := ReconcileStep(w, canEdit, Lost, Accepted, doc);
      && outcome == Created(w.nextId + 1)
      && w.nextId !in w.messages && w.nextId + 1 !in w.messages
      && w'.messages == w.messages[w.nextId := doc][w.nextId + 1 := doc] && w'.sends == w.sends + 2
      && w'.embedId == Some(w.nextId + 1) && w'.writes == w.writes + [Some(w.nextId + 1)]
  {
  }

  /**
   * The life of the status message: the first step sends it and stores its
   * id, the second edits it in place, and after someone deletes it the third
   * sends a replacement under a new id. Over the three steps the platform
   * sends two messages and carries out one edit.
   */
  lemma MessageLifecycle(w0: World, doc: Document)
    requires Consistent(w0) && w0.embedId.None?
    ensures var (first, w1) := ReconcileStep(w0, true, Accepted, Accepted, doc);
      var (second, w2) := ReconcileStep(w1, true, Accepted, Accepted, doc);
      var (third, w3) := ReconcileStep(w2.(messages := w2.messages - {w0.nextId}), true, Accepted, Accepted, doc);
      && first == Created(w0.nextId) && second == Edited(w0.nextId)
      && third == Recreated(w0.nextId, w0.nextId + 1)
      && w3.embedId == Some(w0.nextId + 1) && w3.messages[w0.nextId + 1] == doc
      && w3.writes == w0.writes + [Some(w0.nextId), None, Some(w0.nextId + 1)]
      && w3.sends == w0.sends + 2 && w3.edits == w0.edits + 1
  {
  }
}
