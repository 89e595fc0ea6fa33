/** The values of the inbound Facebook pipeline, and what one event should make the
    connector send. */
module Facebook {
  import opened Text
  import opened Options
  import opened Sequences

  datatype Peer = Peer(sub: string, iss: string, via: Option<string>)

  datatype Gate = Gate(id: string, domain: int, peer: Peer, enabled: bool)

  datatype Attachment = Attachment(kind: string, url: string, title: string, name: string)

  datatype InboundMessage = InboundMessage(text: string, attachments: seq<Attachment>, isEcho: bool)

  datatype Postback = Postback(payload: string)

  datatype Messaging = Messaging(sender: string, message: Option<InboundMessage>, postback: Option<Postback>)
  {
    /** Events without sender or content, and echoes of the page's own messages, are passed over. */
    predicate Ignored() {
      || sender == ""
      || (message.None? && postback.None?)
      || (message.Some? && message.value.isEcho)
    }
  }

  datatype Entry = Entry(id: string, messaging: seq<Messaging>)

  datatype Profile = Profile(firstName: string, lastName: string)

  datatype Media = Media(id: string, mimeType: string, size: int)

  /** A send attempted at the messenger. */
  datatype Call =
    | SendText(domain: int, from: Peer, to: Peer, body: string)
    | SendImage(domain: int, from: Peer, to: Peer, id: string, fileName: string, mimeType: string)
    | SendDocument(domain: int, from: Peer, to: Peer, id: string, fileName: string, mimeType: string, size: int)
  {
    function Sender(): string {
      from.sub
    }
  }

  // ---- Oracles ----

  /** The gateway's answer to a contact creation. */
  datatype Creation = Created | AlreadyExists | CreateFailed

  /** What the outside answers while one event synchronises its contact once. */
  datatype SyncOutcome = SyncOutcome(profile: Option<Profile>, cacheDown: bool, creation: Creation, marked: bool)

  /** What the outside answers while one attachment is handled: the clock, and the uploaded
      medium unless download or upload failed. */
  datatype MediaOutcome = MediaOutcome(now: int, uploaded: Option<Media>)

  /** The answers met by one event. The outcomes of sends are not here: they are only logged. */
  datatype EventOutcome = EventOutcome(first: SyncOutcome, second: SyncOutcome, media: nat -> MediaOutcome)

  // ---- What one event sends ----

  function FromPeer(gate: Gate, psid: string): Peer {
    Peer(psid, gate.peer.iss, None)
  }

  function ToPeer(gate: Gate): Peer {
    Peer(gate.peer.sub, gate.peer.iss, Some(gate.id))
  }

  function Extension(kind: string): string {
    if kind == "image" then ".jpg" else if kind == "video" then ".mp4" else if kind == "audio" then ".mp3" else ".bin"
  }

  function FileName(a: Attachment, now: int): string {
    if a.title != "" then a.title
    else if a.name != "" then a.name
    else "fb_" + a.kind + "_" + Decimal(now) + Extension(a.kind)
  }

  function TextCalls(gate: Gate, psid: string, body: string): seq<Call> {
    [SendText(gate.domain, FromPeer(gate, psid), ToPeer(gate), body)]
  }

  /** One attachment gives at most one send, and none when its transfer fails. */
  function AttachmentCalls(gate: Gate, psid: string, a: Attachment, o: MediaOutcome): seq<Call> {
    if a.url == "" || o.uploaded.None? then []
    else
      var m, name := o.uploaded.value, FileName(a, o.now);
      if a.kind == "image" then
        [SendImage(gate.domain, FromPeer(gate, psid), ToPeer(gate), m.id, name, m.mimeType)]
      else if a.kind == "video" || a.kind == "audio" || a.kind == "file" then
        [SendDocument(gate.domain, FromPeer(gate, psid), ToPeer(gate), m.id, name, m.mimeType,
                      if m.size <= 0 then 1 else m.size)]
      else []
  }

  function AllAttachmentCalls(gate: Gate, psid: string, attachments: seq<Attachment>, media: nat -> MediaOutcome)
      : seq<Call> {
    if attachments == [] then []
    else
      var last := |attachments| - 1;
      AllAttachmentCalls(gate, psid, attachments[..last], media)
      + AttachmentCalls(gate, psid, attachments[last], media(last))
  }

  function MessageCalls(gate: Gate, psid: string, m: InboundMessage, media: nat -> MediaOutcome): seq<Call> {
    (if m.text != "" then TextCalls(gate, psid, m.text) else [])
    + AllAttachmentCalls(gate, psid, m.attachments, media)
  }

  /** Text, then attachments in order, then the postback. */
  function ContentCalls(gate: Gate, ev: Messaging, media: nat -> MediaOutcome): seq<Call> {
    (if ev.message.Some? then MessageCalls(gate, ev.sender, ev.message.value, media) else [])
    + (if ev.postback.Some? then TextCalls(gate, ev.sender, ev.postback.value.payload) else [])
  }

  /** A send on behalf of `psid` through `gate`: in the gate's domain, from the sender under the
      issuer of the gate's bot, to that bot by way of the gate; documents announce a positive size. */
  predicate Speaks(c: Call, gate: Gate, psid: string) {
    && c.domain == gate.domain
    && c.from.sub == psid && c.from.iss == gate.peer.iss && c.from.via == None
    && c.to.sub == gate.peer.sub && c.to.iss == gate.peer.iss && c.to.via == Some(gate.id)
    && (c.SendDocument? ==> c.size >= 1)
  }

  lemma {:induction false} AttachmentsSpeak(gate: Gate, psid: string, attachments: seq<Attachment>,
                                            media: nat -> MediaOutcome)
    ensures forall c <- AllAttachmentCalls(gate, psid, attachments, media) :: Speaks(c, gate, psid)
    ensures |AllAttachmentCalls(gate, psid, attachments, media)| <= |attachments|
  {
    if attachments != [] {
      AttachmentsSpeak(gate, psid, attachments[..|attachments| - 1], media);
    }
  }

  /** Every send of an event is in the name of its sender, to the gate's bot, in the gate's domain. */
  lemma ContentSpeaks(gate: Gate, ev: Messaging, media: nat -> MediaOutcome)
    ensures forall c <- ContentCalls(gate, ev, media) :: Speaks(c, gate, ev.sender)
  {
    if ev.message.Some? {
      AttachmentsSpeak(gate, ev.sender, ev.message.value.attachments, media);
    }
  }

  // ---- In which order ----

  /** The attachment gives a send: it has a url and a kind that is routed, and was uploaded. */
  predicate Routed(a: Attachment, o: MediaOutcome) {
    a.url != "" && o.uploaded.Some? && (a.kind == "image" || a.kind == "video" || a.kind == "audio" || a.kind == "file")
  }

  /** The title if there is one, else the name, else one made of kind and clock. */
  predicate Named(name: string, a: Attachment, now: int) {
    if a.title != "" then name == a.title
    else if a.name != "" then name == a.name
    else
      var ending := if a.kind == "image" then ".jpg" else if a.kind == "video" then ".mp4"
                    else if a.kind == "audio" then ".mp3" else ".bin";
      name == "fb_" + a.kind + "_" + Decimal(now) + ending
  }

  /** The send carries the uploaded medium: images as images, all else as documents, with a
      size of at least one. */
  predicate Carries(c: Call, a: Attachment, o: MediaOutcome) {
    && o.uploaded.Some?
    && var m := o.uploaded.value;
    match c
    case SendText(_, _, _, _) => false
    case SendImage(_, _, _, id, name, mime) =>
      a.kind == "image" && id == m.id && mime == m.mimeType && Named(name, a, o.now)
    case SendDocument(_, _, _, id, name, mime, size) =>
      a.kind != "image" && id == m.id && mime == m.mimeType && Named(name, a, o.now)
      && size >= 1 && (m.size >= 1 ==> size == m.size)
  }

  /** Which attachments give a send. */
  function RoutedOf(attachments: seq<Attachment>, media: nat -> MediaOutcome): set<nat> {
    set i: nat | i < |attachments| && Routed(attachments[i], media(i))
  }

  lemma {:induction false} OneRouted(gate: Gate, psid: string, a: Attachment, o: MediaOutcome)
    ensures var calls := AttachmentCalls(gate, psid, a, o);
      if Routed(a, o) then |calls| == 1 && Carries(calls[0], a, o) else calls == []
  {
  }

  /** `calls` are what the attachments at `at` give, in turn. */
  ghost predicate InTurn(calls: seq<Call>, at: seq<nat>, attachments: seq<Attachment>, media: nat -> MediaOutcome) {
    |calls| == |at| && forall k :: 0 <= k < |at| ==>
      at[k] < |attachments| && Carries(calls[k], attachments[at[k]], media(at[k]))
  }

  lemma {:induction false} InTurnLonger(calls: seq<Call>, at: seq<nat>, attachments: seq<Attachment>,
                                        media: nat -> MediaOutcome)
    requires attachments != [] && InTurn(calls, at, attachments[..|attachments| - 1], media)
    ensures InTurn(calls, at, attachments, media)
  {
  }

  lemma {:induction false} InTurnAppend(calls: seq<Call>, at: seq<nat>, attachments: seq<Attachment>,
                                        media: nat -> MediaOutcome, c: Call, n: nat)
    requires n < |attachments| && InTurn(calls, at, attachments, media) && Carries(c, attachments[n], media(n))
    ensures InTurn(calls + [c], at + [n], attachments, media)
  {
  }

  lemma {:induction false} RoutedStep(attachments: seq<Attachment>, media: nat -> MediaOutcome, n: nat)
    requires n + 1 == |attachments|
    ensures RoutedOf(attachments, media) == RoutedOf(attachments[..n], media) + if Routed(attachments[n], media(n))
        then {n} else {}
  {
  }

  lemma {:induction false} AttachmentOrder(gate: Gate, psid: string, attachments: seq<Attachment>,
                                           media: nat -> MediaOutcome)
      returns (at: seq<nat>)
    ensures Lists(at, RoutedOf(attachments, media))
    ensures InTurn(AllAttachmentCalls(gate, psid, attachments, media), at, attachments, media)
  {
    if attachments == [] {
      at := [];
    } else {
      var n := |attachments| - 1;
      var calls, last := AllAttachmentCalls(gate, psid, attachments[..n], media),
        AttachmentCalls(gate, psid, attachments[n], media(n));
      at := AttachmentOrder(gate, psid, attachments[..n], media);
      InTurnLonger(calls, at, attachments, media);
      RoutedStep(attachments, media, n);
      OneRouted(gate, psid, attachments[n], media(n));
      if last == [] {
        assert RoutedOf(attachments, media) == RoutedOf(attachments[..n], media);
      } else {
        assert last == [last[0]];
        InTurnAppend(calls, at, attachments, media, last[0], n);
        ListsAppend(at, RoutedOf(attachments[..n], media), n);
        at := at + [n];
      }
    }
  }

  function AttachmentsOf(ev: Messaging): seq<Attachment> {
    if ev.message.Some? then ev.message.value.attachments else []
  }

  /** What an event sends, and in which order: its text first, if it has one; then one send for
      every attachment that is routed, in their order; last the payload of its postback. */
  lemma {:induction false} ContentOrder(gate: Gate, ev: Messaging, media: nat -> MediaOutcome) returns (at: seq<nat>)
    ensures Lists(at, RoutedOf(AttachmentsOf(ev), media))
    ensures var calls := ContentCalls(gate, ev, media);
      var texts := if ev.message.Some? && ev.message.value.text != "" then 1 else 0;
      && |calls| == texts + |at| + (if ev.postback.Some? then 1 else 0)
      && (texts == 1 ==> calls[0].SendText? && calls[0].body == ev.message.value.text)
      && InTurn(calls[texts..texts + |at|], at, AttachmentsOf(ev), media)
      && (ev.postback.Some? ==> calls[|calls| - 1].SendText? && calls[|calls| - 1].body == ev.postback.value.payload)
  {
    at := AttachmentOrder(gate, ev.sender, AttachmentsOf(ev), media);
    var calls, middle := ContentCalls(gate, ev, media), AllAttachmentCalls(gate, ev.sender, AttachmentsOf(ev), media);
    var texts := if ev.message.Some? && ev.message.value.text != "" then 1 else 0;
    assert calls[texts..texts + |at|] == middle;
  }

  // ---- Flattening ----

  /** All events of a delivery, entry by entry. */
  function Events(entries: seq<Entry>): seq<Messaging> {
    if entries == [] then [] else Events(entries[..|entries| - 1]) + entries[|entries| - 1].messaging
  }

  function EventCount(entries: seq<Entry>): nat {
    if entries == [] then 0 else EventCount(entries[..|entries| - 1]) + |entries[|entries| - 1].messaging|
  }

  /** Events keep the order of the entries and of the messages in each: message `m` of entry `e`
      comes after all messages of the entries before and the `m` before it in its own. */
  lemma {:induction false} EventsInOrder(entries: seq<Entry>, e: nat, m: nat)
    requires e < |entries| && m < |entries[e].messaging|
    ensures |Events(entries)| == EventCount(entries)
    ensures EventCount(entries[..e]) + m < |Events(entries)|
    ensures Events(entries)[EventCount(entries[..e]) + m] == entries[e].messaging[m]
  {
    var n := |entries| - 1;
    EventsCounted(entries);
    EventsCounted(entries[..n]);
    if e < n {
      EventsInOrder(entries[..n], e, m);
      assert entries[..n][..e] == entries[..e];
    }
  }

  lemma {:induction false} EventsCounted(entries: seq<Entry>)
    ensures |Events(entries)| == EventCount(entries)
  {
    if entries != [] {
      EventsCounted(entries[..|entries| - 1]);
    }
  }

  method AllMessages(entries: seq<Entry>) returns (out: seq<Messaging>)
    ensures out == Events(entries) && |out| == EventCount(entries)
  {
    var total := 0;
    for i := 0 to |entries|
      invariant total == EventCount(entries[..i])
    {
      assert entries[..i + 1][..i] == entries[..i];
      total := total + |entries[i].messaging|;
    }
    out := [];
    for i := 0 to |entries|
      invariant out == Events(entries[..i]) && |out| == EventCount(entries[..i])
    {
      assert entries[..i + 1][..i] == entries[..i];
      out := out + entries[i].messaging;
    }
    assert entries[..|entries|] == entries;
  }
}
