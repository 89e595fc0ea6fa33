/** Interactive messages: from the keyboard of a request (internal/core/handler/outbound_message.go)
    to Facebook's Quick Replies, Button Template or Generic Template (internal/facebook/client.go). */
module Keyboard {
  import opened Options
  import opened Sequences

  // ---- The request ----

  /** The kind of a button in the request; at most one is set. */
  datatype Kind = NoKind | UrlKind(url: string) | CallbackKind(data: string) | RequestKind(action: string)

  datatype PbButton = PbButton(id: string, caption: string, kind: Kind)

  datatype PbSection = PbSection(section: string, buttons: seq<PbButton>)

  datatype PbInteractive =
    | PbMarkup(singleUse: bool, rows: seq<seq<PbButton>>)
    | PbListReply(singleUse: bool, mainButtonTitle: string, sections: seq<PbSection>)
    | PbNothing(singleUse: bool)

  // ---- The domain model ----

  datatype Button = Button(id: string, caption: string, url: Option<string>, callback: Option<string>,
    request: Option<string>)

  datatype Section = Section(section: string, buttons: seq<Button>)

  datatype ListReply = ListReply(mainButtonTitle: string, sections: seq<Section>)

  datatype Interactive = Interactive(singleUse: bool, markup: Option<seq<seq<Button>>>, listReply: Option<ListReply>)

  // ---- Facebook ----

  datatype QuickReply = QuickReply(contentType: string, title: string, payload: string)

  datatype FbButton = FbButton(kind: string, title: string, url: string, payload: string)

  datatype Element = Element(title: string, buttons: seq<FbButton>)

  datatype Message =
    | QuickReplies(text: string, replies: seq<QuickReply>)
    | ButtonTemplate(text: string, buttons: seq<FbButton>)
    | GenericTemplate(elements: seq<Element>)

  datatype Error = NilInteractive | NoKindSet | NoQuickReply | NoTemplateButton | NoSections

  datatype Result = Built(message: Message) | Rejected(error: Error)

  const MAX_QUICK_REPLIES := 13
  const MAX_BUTTONS := 3
  const MAX_ELEMENTS := 10

  // ---- One button at a time ----

  function FromPb(b: PbButton): Button {
    Button(b.id, b.caption,
           if b.kind.UrlKind? then Some(b.kind.url) else None,
           if b.kind.CallbackKind? then Some(b.kind.data) else None,
           if b.kind.RequestKind? then Some(b.kind.action) else None)
  }

  function RequestReply(caption: string, action: string): QuickReply {
    if action == "location" then QuickReply("location", "", "")
    else if action == "phone" || action == "user_phone_number" || action == "contact"
      then QuickReply("user_phone_number", "", "")
    else if action == "email" || action == "user_email" then QuickReply("user_email", "", "")
    else QuickReply("text", caption, action)
  }

  function CallbackReply(caption: string, data: string): QuickReply {
    QuickReply("text", caption, data)
  }

  function UrlButton(caption: string, url: string): FbButton {
    FbButton("web_url", caption, url, "")
  }

  function PostbackButton(caption: string, data: string): FbButton {
    FbButton("postback", caption, "", data)
  }

  /** The quick reply of a button, if it has one: callbacks before requests. */
  function Reply(b: Button): seq<QuickReply> {
    if b.callback.Some? then [CallbackReply(b.caption, b.callback.value)]
    else if b.request.Some? then [RequestReply(b.caption, b.request.value)]
    else []
  }

  /** The template button of a button, if it has one: urls before callbacks. */
  function Template(b: Button): seq<FbButton> {
    if b.url.Some? then [UrlButton(b.caption, b.url.value)]
    else if b.callback.Some? then [PostbackButton(b.caption, b.callback.value)]
    else []
  }

  // ---- Sequences of buttons ----

  function Flat(row: seq<Button>): seq<Button> {
    row
  }

  function Buttons(rows: seq<seq<Button>>): seq<Button> {
    Collect(Flat, rows)
  }

  predicate HasUrl(buttons: seq<Button>) {
    exists b <- buttons :: b.url.Some?
  }

  // ---- What is built ----

  function QuickReplyMessage(body: string, buttons: seq<Button>): Result {
    var replies := Collect(Reply, Take(MAX_QUICK_REPLIES, buttons));
    if replies == [] then Rejected(NoQuickReply) else Built(QuickReplies(body, replies))
  }

  function TemplateMessage(body: string, buttons: seq<Button>): Result {
    var fb := Take(MAX_BUTTONS, Collect(Template, buttons));
    if fb == [] then Rejected(NoTemplateButton)
    else Built(ButtonTemplate(if body == "" then "Choose an option" else body, fb))
  }

  function MarkupMessage(body: string, rows: seq<seq<Button>>): Result {
    var all := Buttons(rows);
    if HasUrl(all) then TemplateMessage(body, all) else QuickReplyMessage(body, all)
  }

  function ElementOf(s: Section): Element {
    Element(s.section, Take(MAX_BUTTONS, Collect(Template, s.buttons)))
  }

  function ListReplyMessage(sections: seq<Section>): Result {
    if sections == [] then Rejected(NoSections)
    else Built(GenericTemplate(Map(ElementOf, Take(MAX_ELEMENTS, sections))))
  }

  function InteractiveMessage(body: string, interactive: Option<Interactive>): Result {
    if interactive.None? then Rejected(NilInteractive)
    else if interactive.value.markup.Some? then MarkupMessage(body, interactive.value.markup.value)
    else if interactive.value.listReply.Some? then ListReplyMessage(interactive.value.listReply.value.sections)
    else Rejected(NoKindSet)
  }

  function FromPbRow(row: seq<PbButton>): seq<Button> {
    Map(FromPb, row)
  }

  function FromPbSection(s: PbSection): Section {
    Section(s.section, Map(FromPb, s.buttons))
  }

  function FromPbInteractive(pb: Option<PbInteractive>): Option<Interactive> {
    match pb
    case None => None
    case Some(PbMarkup(once, rows)) => Some(Interactive(once, Some(Map(FromPbRow, rows)), None))
    case Some(PbListReply(once, title, sections)) =>
      Some(Interactive(once, None, Some(ListReply(title, Map(FromPbSection, sections)))))
    case Some(PbNothing(once)) => Some(Interactive(once, None, None))
  }

  // ---- The loops ----

  method MapButtons(pbs: seq<PbButton>) returns (out: seq<Button>)
    ensures out == Map(FromPb, pbs)
  {
    out := [];
    for i := 0 to |pbs|
      invariant out == Map(FromPb, pbs[..i])
    {
      var b := pbs[i];
      var btn := Button(b.id, b.caption, None, None, None);
      if b.kind.UrlKind? {
        btn := btn.(url := Some(b.kind.url));
      } else if b.kind.CallbackKind? {
        btn := btn.(callback := Some(b.kind.data));
      } else if b.kind.RequestKind? {
        btn := btn.(request := Some(b.kind.action));
      }
      assert btn == FromPb(b);
      out := out + [btn];
    }
    assert pbs[..|pbs|] == pbs;
  }

  method MapInteractive(pb: Option<PbInteractive>) returns (out: Option<Interactive>)
    ensures out == FromPbInteractive(pb)
  {
    if pb.None? {
      return None;
    }
    if pb.value.PbMarkup? {
      var rows := [];
      for i := 0 to |pb.value.rows|
        invariant rows == Map(FromPbRow, pb.value.rows[..i])
      {
        var buttons := MapButtons(pb.value.rows[i]);
        assert buttons == FromPbRow(pb.value.rows[i]);
        rows := rows + [buttons];
      }
      assert pb.value.rows[..|pb.value.rows|] == pb.value.rows;
      return Some(Interactive(pb.value.singleUse, Some(rows), None));
    } else if pb.value.PbListReply? {
      var sections := [];
      for i := 0 to |pb.value.sections|
        invariant sections == Map(FromPbSection, pb.value.sections[..i])
      {
        var buttons := MapButtons(pb.value.sections[i].buttons);
        assert FromPbSection(pb.value.sections[i]) == Section(pb.value.sections[i].section, buttons);
        sections := sections + [Section(pb.value.sections[i].section, buttons)];
      }
      assert pb.value.sections[..|pb.value.sections|] == pb.value.sections;
      return Some(Interactive(pb.value.singleUse, None, Some(ListReply(pb.value.mainButtonTitle, sections))));
    }
    return Some(Interactive(pb.value.singleUse, None, None));
  }

  method HasUrlButton(buttons: seq<Button>) returns (yes: bool)
    ensures yes == HasUrl(buttons)
  {
    for i := 0 to |buttons|
      invariant forall b <- buttons[..i] :: b.url.None?
    {
      if buttons[i].url.Some? {
        return true;
      }
    }
    assert buttons[..|buttons|] == buttons;
    return false;
  }

  method BuildQuickReplies(body: string, buttons: seq<Button>) returns (r: Result)
    ensures r == QuickReplyMessage(body, buttons)
  {
    var replies: seq<QuickReply> := [];
    ghost var kept := Take(MAX_QUICK_REPLIES, buttons);
    var i := 0;
    while i < |buttons|
      invariant i <= |kept|
      invariant replies == Collect(Reply, kept[..i])
    {
      if i >= MAX_QUICK_REPLIES {
        break;
      }
      var b := buttons[i];
      assert kept[..i + 1][..i] == kept[..i];
      if b.callback.Some? {
        replies := replies + [CallbackReply(b.caption, b.callback.value)];
      } else if b.request.Some? {
        replies := replies + [RequestReply(b.caption, b.request.value)];
      }
      i := i + 1;
    }
    assert kept[..i] == kept;
    if |replies| == 0 {
      return Rejected(NoQuickReply);
    }
    return Built(QuickReplies(body, replies));
  }

  /** The button loop, which both template builders contain. */
  method TemplateButtons(buttons: seq<Button>) returns (fb: seq<FbButton>)
    ensures fb == Take(MAX_BUTTONS, Collect(Template, buttons))
  {
    fb := [];
    for i := 0 to |buttons|
      invariant fb == Collect(Template, buttons[..i]) && |fb| <= MAX_BUTTONS
    {
      assert buttons[..i] + buttons[i..] == buttons;
      if |fb| >= MAX_BUTTONS {
        CollectConcat(Template, buttons[..i], buttons[i..]);
        return;
      }
      var b := buttons[i];
      assert buttons[..i + 1][..i] == buttons[..i];
      if b.url.Some? {
        fb := fb + [UrlButton(b.caption, b.url.value)];
      } else if b.callback.Some? {
        fb := fb + [PostbackButton(b.caption, b.callback.value)];
      }
    }
    assert buttons[..|buttons|] == buttons;
  }

  method BuildButtonTemplate(body: string, buttons: seq<Button>) returns (r: Result)
    ensures r == TemplateMessage(body, buttons)
  {
    var fb := TemplateButtons(buttons);
    if |fb| == 0 {
      return Rejected(NoTemplateButton);
    }
    var text := body;
    if text == "" {
      text := "Choose an option";
    }
    return Built(ButtonTemplate(text, fb));
  }

  method BuildMarkupMessage(body: string, rows: seq<seq<Button>>) returns (r: Result)
    ensures r == MarkupMessage(body, rows)
  {
    var all: seq<Button> := [];
    for i := 0 to |rows|
      invariant all == Buttons(rows[..i])
    {
      assert rows[..i + 1][..i] == rows[..i];
      all := all + rows[i];
    }
    assert rows[..|rows|] == rows;
    var url := HasUrlButton(all);
    if url {
      r := BuildButtonTemplate(body, all);
    } else {
      r := BuildQuickReplies(body, all);
    }
  }

  method BuildListReplyMessage(sections: seq<Section>) returns (r: Result)
    ensures r == ListReplyMessage(sections)
  {
    var elements: seq<Element> := [];
    ghost var kept := Take(MAX_ELEMENTS, sections);
    var i := 0;
    while i < |sections|
      invariant i <= |kept|
      invariant elements == Map(ElementOf, kept[..i])
    {
      if i >= MAX_ELEMENTS {
        break;
      }
      var buttons := TemplateButtons(sections[i].buttons);
      assert ElementOf(sections[i]) == Element(sections[i].section, buttons);
      elements := elements + [Element(sections[i].section, buttons)];
      i := i + 1;
    }
    assert kept[..i] == kept;
    if |elements| == 0 {
      return Rejected(NoSections);
    }
    return Built(GenericTemplate(elements));
  }

  method BuildInteractiveMessage(body: string, interactive: Option<Interactive>) returns (r: Result)
    ensures r == InteractiveMessage(body, interactive)
  {
    if interactive.None? {
      return Rejected(NilInteractive);
    }
    if interactive.value.markup.Some? {
      r := BuildMarkupMessage(body, interactive.value.markup.value);
    } else if interactive.value.listReply.Some? {
      r := BuildListReplyMessage(interactive.value.listReply.value.sections);
    } else {
      r := Rejected(NoKindSet);
    }
  }

  // ---- What the translation promises ----

  /** Exactly one part of a button is set, or none. */
  predicate OneKind(b: Button) {
    && !(b.url.Some? && b.callback.Some?) && !(b.url.Some? && b.request.Some?)
    && !(b.callback.Some? && b.request.Some?)
  }

  /** The two switches with their cases in the other order. */
  function ReplyReordered(b: Button): seq<QuickReply> {
    if b.request.Some? then [RequestReply(b.caption, b.request.value)]
    else if b.callback.Some? then [CallbackReply(b.caption, b.callback.value)]
    else []
  }

  function TemplateReordered(b: Button): seq<FbButton> {
    if b.callback.Some? then [PostbackButton(b.caption, b.callback.value)]
    else if b.url.Some? then [UrlButton(b.caption, b.url.value)]
    else []
  }

  /** The order of cases matters in the template switch exactly for buttons with url and
      callback, and in the reply switch exactly for those with callback and request, unless the
      request is passed on as text and is that callback. No button mapped from a request is one. */
  lemma {:induction false} CaseOrder(b: Button, pb: PbButton)
    ensures Template(b) == TemplateReordered(b) <==> !(b.url.Some? && b.callback.Some?)
    ensures Reply(b) == ReplyReordered(b) <==>
            || !(b.callback.Some? && b.request.Some?)
            || (b.callback == b.request && RequestReply(b.caption, b.request.value).contentType == "text")
    ensures OneKind(FromPb(pb))
    ensures Reply(FromPb(pb)) == ReplyReordered(FromPb(pb))
    ensures Template(FromPb(pb)) == TemplateReordered(FromPb(pb))
  {
    if b.url.Some? && b.callback.Some? {
      assert Template(b)[0].kind == "web_url" && TemplateReordered(b)[0].kind == "postback";
    }
    if b.callback.Some? && b.request.Some? {
      RequestPassedOn(b.caption, b.callback.value, b.request.value);
      assert Reply(b)[0] == CallbackReply(b.caption, b.callback.value);
      assert ReplyReordered(b)[0] == RequestReply(b.caption, b.request.value);
    }
  }

  /** A request gives the reply of a callback exactly when it is passed on as text and is that
      callback. */
  lemma {:induction false} RequestPassedOn(caption: string, data: string, action: string)
    ensures CallbackReply(caption, data) == RequestReply(caption, action) <==>
            data == action && RequestReply(caption, action).contentType == "text"
  {
    assert "location"[0] != "text"[0] && "user_phone_number"[0] != "text"[0] && "user_email"[0] != "text"[0];
  }

  // ---- In the request's own terms ----

  /** A place in a keyboard: row and column. */
  datatype Place = Place(row: nat, col: nat)

  predicate Within(rows: seq<seq<PbButton>>, p: Place) {
    p.row < |rows| && p.col < |rows[p.row]|
  }

  function ButtonAt(rows: seq<seq<PbButton>>, p: Place): PbButton
    requires Within(rows, p)
  {
    rows[p.row][p.col]
  }

  /** Reading order: row by row, each from left to right. */
  predicate Precedes(p: Place, q: Place) {
    p.row < q.row || (p.row == q.row && p.col < q.col)
  }

  /** How many buttons are read before row `r`. */
  function ReadBefore(rows: seq<seq<PbButton>>, r: nat): nat
    requires r <= |rows|
  {
    if r == 0 then 0 else ReadBefore(rows, r - 1) + |rows[r - 1]|
  }

  /** How many buttons are read before place `p`. */
  function Rank(rows: seq<seq<PbButton>>, p: Place): nat
    requires Within(rows, p)
  {
    ReadBefore(rows, p.row) + p.col
  }

  /** The place of the button read after `i` others. */
  function PlaceOf(rows: seq<seq<PbButton>>, i: nat): (p: Place)
    requires i < ReadBefore(rows, |rows|)
    ensures Within(rows, p) && Rank(rows, p) == i
  {
    PlaceIn(rows, |rows|, i)
  }

  /** The same, when it is in the first `r` rows. */
  function PlaceIn(rows: seq<seq<PbButton>>, r: nat, i: nat): (p: Place)
    requires r <= |rows| && i < ReadBefore(rows, r)
    ensures Within(rows, p) && Rank(rows, p) == i
  {
    if i < ReadBefore(rows, r - 1) then PlaceIn(rows, r - 1, i) else Place(r - 1, i - ReadBefore(rows, r - 1))
  }

  lemma {:induction false} ReadBeforeGrows(rows: seq<seq<PbButton>>, q: nat, r: nat)
    requires q <= r <= |rows|
    ensures ReadBefore(rows, q) <= ReadBefore(rows, r)
  {
    if q < r {
      ReadBeforeGrows(rows, q, r - 1);
    }
  }

  /** Ranks follow reading order, so every button has its own. */
  lemma {:induction false} RankOrder(rows: seq<seq<PbButton>>, p: Place, q: Place)
    requires Within(rows, p) && Within(rows, q)
    ensures Precedes(p, q) <==> Rank(rows, p) < Rank(rows, q)
    ensures p == q <==> Rank(rows, p) == Rank(rows, q)
    ensures Rank(rows, p) < ReadBefore(rows, |rows|)
  {
    ReadBeforeGrows(rows, p.row + 1, |rows|);
    if p.row < q.row {
      ReadBeforeGrows(rows, p.row + 1, q.row);
    } else if q.row < p.row {
      ReadBeforeGrows(rows, q.row + 1, p.row);
    }
  }

  /** The button of rank `i` is button `i` of all rows put together. */
  lemma {:induction false} ReadingOrder(rows: seq<seq<PbButton>>, r: nat)
    requires r <= |rows|
    ensures var all := Buttons(Map(FromPbRow, rows[..r]));
      && |all| == ReadBefore(rows, r)
      && forall i :: 0 <= i < |all| ==> all[i] == FromPb(ButtonAt(rows, PlaceIn(rows, r, i)))
  {
    if r > 0 {
      ReadingOrder(rows, r - 1);
      var front, mapped := Map(FromPbRow, rows[..r - 1]), Map(FromPbRow, rows[..r]);
      assert mapped[..r - 1] == front && mapped[r - 1] == FromPbRow(rows[r - 1]);
      assert Buttons(mapped) == Buttons(front) + FromPbRow(rows[r - 1]);
    }
  }

  /** The places of `wanted`, each once, in reading order. */
  ghost predicate InOrder(at: seq<Place>, wanted: iset<Place>) {
    && (forall i, j :: 0 <= i < j < |at| ==> Precedes(at[i], at[j]))
    && (forall i :: 0 <= i < |at| ==> at[i] in wanted)
    && (forall p <- wanted :: p in at)
  }

  function PlacesOf(rows: seq<seq<PbButton>>, ranks: seq<nat>): seq<Place>
    requires forall k :: 0 <= k < |ranks| ==> ranks[k] < ReadBefore(rows, |rows|)
  {
    seq(|ranks|, k requires 0 <= k < |ranks| => PlaceOf(rows, ranks[k]))
  }

  /** Ranks that are listed are places in order. */
  lemma {:induction false} RanksToPlaces(rows: seq<seq<PbButton>>, ranks: seq<nat>, wanted: set<nat>)
    requires Lists(ranks, wanted) && forall i <- wanted :: i < ReadBefore(rows, |rows|)
    ensures InOrder(PlacesOf(rows, ranks), iset p: Place | Within(rows, p) && Rank(rows, p) in wanted)
  {
    var at := PlacesOf(rows, ranks);
    forall i, j | 0 <= i < j < |at|
      ensures Precedes(at[i], at[j])
    {
      RankOrder(rows, at[i], at[j]);
    }
    forall p: Place | Within(rows, p) && Rank(rows, p) in wanted
      ensures p in at
    {
      var k :| 0 <= k < |ranks| && ranks[k] == Rank(rows, p);
      RankOrder(rows, p, at[k]);
    }
  }

  // ---- What each button becomes ----

  /** The quick reply of a callback or request button. */
  function ReplyTo(b: PbButton): QuickReply
    requires b.kind.CallbackKind? || b.kind.RequestKind?
  {
    match b.kind
    case CallbackKind(data) => CallbackReply(b.caption, data)
    case RequestKind(action) => RequestReply(b.caption, action)
  }

  /** The template button of a url or callback button. */
  function ButtonFor(b: PbButton): FbButton
    requires b.kind.UrlKind? || b.kind.CallbackKind?
  {
    match b.kind
    case UrlKind(url) => UrlButton(b.caption, url)
    case CallbackKind(data) => PostbackButton(b.caption, data)
  }

  /** The template button of a request's button, field by field: urls open, callbacks post back. */
  predicate ShownAs(f: FbButton, b: PbButton) {
    && f.title == b.caption
    && match b.kind
       case UrlKind(url) => f.kind == "web_url" && f.url == url && f.payload == ""
       case CallbackKind(data) => f.kind == "postback" && f.payload == data && f.url == ""
       case _ => false
  }

  /** The quick reply of a request's button, field by field: callbacks and unknown actions as
      text, the others as what they ask for. */
  predicate AskedAs(r: QuickReply, b: PbButton) {
    match b.kind
    case CallbackKind(data) => r.contentType == "text" && r.title == b.caption && r.payload == data
    case RequestKind(action) =>
      if action == "location" then r.contentType == "location" && r.title == "" && r.payload == ""
      else if action == "phone" || action == "user_phone_number" || action == "contact"
      then r.contentType == "user_phone_number" && r.title == "" && r.payload == ""
      else if action == "email" || action == "user_email"
      then r.contentType == "user_email" && r.title == "" && r.payload == ""
      else r.contentType == "text" && r.title == b.caption && r.payload == action
    case _ => false
  }

  predicate OnTemplate(b: PbButton) {
    b.kind.UrlKind? || b.kind.CallbackKind?
  }

  predicate OnReplies(b: PbButton) {
    b.kind.CallbackKind? || b.kind.RequestKind?
  }

  /** A button gives one template button or quick reply if its kind is one of those, else none. */
  lemma {:induction false} OneButton(b: PbButton)
    ensures Template(FromPb(b)) == if OnTemplate(b) then [ButtonFor(b)] else []
    ensures Reply(FromPb(b)) == if OnReplies(b) then [ReplyTo(b)] else []
    ensures OnTemplate(b) ==> ShownAs(ButtonFor(b), b)
    ensures OnReplies(b) ==> AskedAs(ReplyTo(b), b)
  {
  }

  ghost predicate AnyUrl(rows: seq<seq<PbButton>>) {
    exists p :: Within(rows, p) && ButtonAt(rows, p).kind.UrlKind?
  }

  function MarkupOf(once: bool, rows: seq<seq<PbButton>>): Option<Interactive> {
    FromPbInteractive(Some(PbMarkup(once, rows)))
  }

  /** The places whose buttons give something, among the first `bound` buttons. */
  ghost function Wanted(rows: seq<seq<PbButton>>, gives: PbButton -> bool, bound: nat): iset<Place> {
    iset p: Place | Within(rows, p) && gives(ButtonAt(rows, p)) && Rank(rows, p) < bound
  }

  function AllButtons(rows: seq<seq<PbButton>>): seq<Button> {
    Buttons(Map(FromPbRow, rows))
  }

  /** All buttons put together, by rank and by place. */
  lemma {:induction false} AllByRank(rows: seq<seq<PbButton>>, p: Place)
    ensures |AllButtons(rows)| == ReadBefore(rows, |rows|)
    ensures forall i :: 0 <= i < |AllButtons(rows)| ==> AllButtons(rows)[i] == FromPb(ButtonAt(rows, PlaceOf(rows, i)))
    ensures Within(rows, p) ==>
        Rank(rows, p) < |AllButtons(rows)| && AllButtons(rows)[Rank(rows, p)] == FromPb(ButtonAt(rows, p))
  {
    assert rows[..|rows|] == rows;
    ReadingOrder(rows, |rows|);
    if Within(rows, p) {
      RankOrder(rows, p, p);
      RankOrder(rows, p, PlaceOf(rows, Rank(rows, p)));
    }
  }

  lemma {:induction false} MappedUrl(rows: seq<seq<PbButton>>)
    ensures HasUrl(AllButtons(rows)) <==> AnyUrl(rows)
  {
    var all := AllButtons(rows);
    if b :| b in all && b.url.Some? {
      AllByRank(rows, Place(0, 0));
      var i :| 0 <= i < |all| && all[i] == b;
      assert ButtonAt(rows, PlaceOf(rows, i)).kind.UrlKind?;
    }
    if p :| Within(rows, p) && ButtonAt(rows, p).kind.UrlKind? {
      AllByRank(rows, p);
      assert all[Rank(rows, p)] in all;
    }
  }

  lemma {:induction false} GiversWanted<B>(rows: seq<seq<PbButton>>, f: Button -> seq<B>, gives: PbButton -> bool,
                                           bound: nat, p: Place)
    requires forall b: PbButton :: |f(FromPb(b))| == if gives(b) then 1 else 0
    ensures Within(rows, p) && Rank(rows, p) in Givers(f, Take(bound, AllButtons(rows))) <==>
        p in Wanted(rows, gives, bound)
  {
    AllByRank(rows, p);
    if Within(rows, p) {
      var b := ButtonAt(rows, p);
      assert |f(FromPb(b))| == if gives(b) then 1 else 0;
    }
  }

  /** Collecting from the first `bound` buttons of a keyboard, in terms of its places. */
  lemma {:induction false} CollectInOrder<B>(rows: seq<seq<PbButton>>, f: Button -> seq<B>, gives: PbButton -> bool,
                                             bound: nat)
      returns (at: seq<Place>)
    requires forall b: PbButton :: |f(FromPb(b))| == if gives(b) then 1 else 0
    ensures InOrder(at, Wanted(rows, gives, bound))
    ensures var got := Collect(f, Take(bound, AllButtons(rows)));
      |got| == |at| && forall k :: 0 <= k < |at| ==> Within(rows, at[k]) && [got[k]] == f(FromPb(ButtonAt(rows, at[k])))
  {
    var s := Take(bound, AllButtons(rows));
    AllByRank(rows, Place(0, 0));
    forall x | x in s
      ensures |f(x)| <= 1
    {
      var i :| 0 <= i < |s| && s[i] == x;
      assert x == FromPb(ButtonAt(rows, PlaceOf(rows, i)));
    }
    var ranks := CollectPicks(f, s);
    at := PlacesOf(rows, ranks);
    RanksToPlaces(rows, ranks, Givers(f, s));
    forall p: Place
      ensures Within(rows, p) && Rank(rows, p) in Givers(f, s) <==> p in Wanted(rows, gives, bound)
    {
      GiversWanted(rows, f, gives, bound, p);
    }
  }

  lemma {:induction false} WantedAll(rows: seq<seq<PbButton>>, gives: PbButton -> bool)
    ensures Wanted(rows, gives, |AllButtons(rows)|) == iset p: Place | Within(rows, p) && gives(ButtonAt(rows, p))
  {
    forall p | Within(rows, p)
      ensures Rank(rows, p) < |AllButtons(rows)|
    {
      AllByRank(rows, p);
    }
  }

  /** The template buttons of a keyboard, before the cut. */
  lemma {:induction false} TemplatesInOrder(rows: seq<seq<PbButton>>) returns (at: seq<Place>)
    ensures InOrder(at, iset p: Place | Within(rows, p) && OnTemplate(ButtonAt(rows, p)))
    ensures var got := Collect(Template, AllButtons(rows));
      |got| == |at| && forall k :: 0 <= k < |at| ==>
        Within(rows, at[k]) && ShownAs(got[k], ButtonAt(rows, at[k]))
  {
    var all := AllButtons(rows);
    forall b: PbButton
      ensures |Template(FromPb(b))| == if OnTemplate(b) then 1 else 0
    {
      OneButton(b);
    }
    at := CollectInOrder(rows, Template, OnTemplate, |all|);
    WantedAll(rows, OnTemplate);
    assert Take(|all|, all) == all;
    var got := Collect(Template, all);
    forall k | 0 <= k < |at|
      ensures ShownAs(got[k], ButtonAt(rows, at[k]))
    {
      assert at[k] in Wanted(rows, OnTemplate, |all|);
      OneButton(ButtonAt(rows, at[k]));
    }
  }

  /** A markup with a url: the k-th template button is that of the k-th url or callback button
      of the request in reading order, and the first three are there, or all of them. */
  lemma {:induction false} TemplateInOrder(body: string, once: bool, rows: seq<seq<PbButton>>) returns (at: seq<Place>)
    requires AnyUrl(rows)
    ensures InOrder(at, iset p: Place | Within(rows, p) && OnTemplate(ButtonAt(rows, p)))
    ensures var r := InteractiveMessage(body, MarkupOf(once, rows));
      && r.Built? && r.message.ButtonTemplate?
      && r.message.text == (if body == "" then "Choose an option" else body)
      && |r.message.buttons| == (if |at| < 3 then |at| else 3) > 0
      && forall k :: 0 <= k < |r.message.buttons| ==>
           Within(rows, at[k]) && ShownAs(r.message.buttons[k], ButtonAt(rows, at[k]))
  {
    MappedUrl(rows);
    at := TemplatesInOrder(rows);
    var p :| Within(rows, p) && ButtonAt(rows, p).kind.UrlKind?;
    assert p in at;
    assert InteractiveMessage(body, MarkupOf(once, rows)) == TemplateMessage(body, AllButtons(rows));
  }

  /** A markup without: the k-th quick reply is that of the k-th callback or request button
      among the first thirteen buttons of the request; an error when they have none. */
  lemma {:induction false} RepliesInOrder(body: string, once: bool, rows: seq<seq<PbButton>>) returns (at: seq<Place>)
    requires !AnyUrl(rows)
    ensures InOrder(at, iset p: Place | Within(rows, p) && OnReplies(ButtonAt(rows, p))
        && Rank(rows, p) < 13)
    ensures var r := InteractiveMessage(body, MarkupOf(once, rows));
      if at == [] then r == Rejected(NoQuickReply)
      else
        && r.Built? && r.message.QuickReplies? && r.message.text == body && |r.message.replies| == |at|
        && forall k :: 0 <= k < |at| ==>
             Within(rows, at[k]) && AskedAs(r.message.replies[k], ButtonAt(rows, at[k]))
  {
    forall b: PbButton
      ensures |Reply(FromPb(b))| == if OnReplies(b) then 1 else 0
    {
      OneButton(b);
    }
    MappedUrl(rows);
    at := CollectInOrder(rows, Reply, OnReplies, MAX_QUICK_REPLIES);
    forall k | 0 <= k < |at|
      ensures AskedAs(Collect(Reply, Take(MAX_QUICK_REPLIES, AllButtons(rows)))[k], ButtonAt(rows, at[k]))
    {
      OneButton(ButtonAt(rows, at[k]));
    }
  }

  lemma {:induction false} RepliesBound(buttons: seq<Button>)
    ensures |Collect(Reply, buttons)| <= |buttons|
  {
    if buttons != [] {
      RepliesBound(buttons[..|buttons| - 1]);
    }
  }

  /** The kind of message a markup becomes: a template exactly when some button has a url. */
  lemma {:induction false} MarkupKind(body: string, once: bool, rows: seq<seq<PbButton>>)
    ensures var r := InteractiveMessage(body, MarkupOf(once, rows));
      && (AnyUrl(rows) <==> r.Built? && r.message.ButtonTemplate?)
      && (r.Built? ==> r.message.ButtonTemplate? || r.message.QuickReplies?)
      && (r.Built? && r.message.ButtonTemplate? ==> 1 <= |r.message.buttons| <= 3)
      && (r.Built? && r.message.QuickReplies? ==> 1 <= |r.message.replies| <= 13)
  {
    if AnyUrl(rows) {
      var _ := TemplateInOrder(body, once, rows);
    } else {
      MappedUrl(rows);
      RepliesBound(Take(MAX_QUICK_REPLIES, AllButtons(rows)));
    }
  }

  /** How the buttons are spread over rows does not matter, only their reading order. */
  lemma {:induction false} RowsIrrelevant(body: string, once: bool, rows: seq<seq<PbButton>>,
                                          others: seq<seq<PbButton>>)
    requires ReadBefore(rows, |rows|) == ReadBefore(others, |others|)
    requires forall i :: 0 <= i < ReadBefore(rows, |rows|) ==>
               ButtonAt(rows, PlaceOf(rows, i)) == ButtonAt(others, PlaceOf(others, i))
    ensures InteractiveMessage(body, MarkupOf(once, rows)) == InteractiveMessage(body, MarkupOf(once, others))
  {
    AllByRank(rows, Place(0, 0));
    AllByRank(others, Place(0, 0));
    assert AllButtons(rows) == AllButtons(others);
  }

  /** A list reply: one element for each of the first ten sections, and its k-th button is that
      of the section's k-th url or callback button, up to the third. */
  lemma {:induction false} ElementInOrder(body: string, once: bool, title: string, sections: seq<PbSection>, e: nat)
      returns (at: seq<nat>)
    requires e < |sections| && e < 10
    ensures var buttons := sections[e].buttons; Lists(at, set i: nat | i < |buttons| && OnTemplate(buttons[i]))
    ensures var r := InteractiveMessage(body, FromPbInteractive(Some(PbListReply(once, title, sections))));
      && r.Built? && r.message.GenericTemplate?
      && |r.message.elements| == (if |sections| < 10 then |sections| else 10)
      && var element := r.message.elements[e];
      && element.title == sections[e].section
      && |element.buttons| == (if |at| < 3 then |at| else 3)
      && forall k :: 0 <= k < |element.buttons| ==>
           at[k] < |sections[e].buttons| && ShownAs(element.buttons[k], sections[e].buttons[at[k]])
  {
    var pbs := sections[e].buttons;
    var buttons := Map(FromPb, pbs);
    forall i | 0 <= i < |pbs|
      ensures Template(buttons[i]) == if OnTemplate(pbs[i]) then [ButtonFor(pbs[i])] else []
      ensures OnTemplate(pbs[i]) ==> ShownAs(ButtonFor(pbs[i]), pbs[i])
    {
      OneButton(pbs[i]);
    }
    at := CollectPicks(Template, buttons);
    assert Givers(Template, buttons) == set i: nat | i < |pbs| && OnTemplate(pbs[i]);
    var mapped := Map(FromPbSection, sections);
    assert mapped[e] == Section(sections[e].section, buttons);
    assert Map(ElementOf, Take(MAX_ELEMENTS, mapped))[e] == ElementOf(mapped[e]);
  }

  /** What cannot be built: a request without interactive part, one with neither keyboard nor
      list, and a list without sections. */
  lemma {:induction false} NothingToBuild(body: string, once: bool, title: string, sections: seq<PbSection>)
    ensures InteractiveMessage(body, FromPbInteractive(None)) == Rejected(NilInteractive)
    ensures InteractiveMessage(body, FromPbInteractive(Some(PbNothing(once)))) == Rejected(NoKindSet)
    ensures var list := FromPbInteractive(Some(PbListReply(once, title, sections)));
      InteractiveMessage(body, list) == Rejected(NoSections) <==> sections == []
  {
  }
}
