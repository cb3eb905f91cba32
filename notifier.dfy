/**
 * The commands and triggers of the bot as functions from the cache, the browser state and
 * the outcomes of the external calls to the new cache, browser state and the calls made.
 * `Bot.NotifierBot` is proved to behave as these functions say.
 */
module Notifier {
  import opened Types
  import opened Text
  import opened Auth
  import opened Cache

  /**
   * Outcomes of the external calls one command may make: launching the browser, listing
   * the catalog, sending the summary, fetching and sending the listing at position i of
   * the listing, and closing the browser.
   */
  datatype Outcomes = Outcomes(
    launch: Status,
    listing: Result<seq<ObjectLink>>,
    preview: Status,
    fetch: nat -> Result<Apartment>,
    photo: nat -> Status,
    close: Status)

  /** What a command leaves behind: the cache, the browser, the calls made, and its status. */
  datatype Effect = Effect(store: Store, browser: BrowserState, calls: seq<Call>, status: Status)

  /** The cache and the calls made so far, part way through the loop over the listing. */
  datatype Progress = Progress(store: Store, calls: seq<Call>)

  /** `links.filter(link => !hasObject(chatId, link.link))`, duplicates included. */
  function NewLinks(s: Store, chat: ChatKey, links: seq<ObjectLink>): (r: seq<ObjectLink>)
    ensures |r| <= |links|
    ensures forall j :: 0 <= j < |r| ==> !Has(s, chat, r[j].link)
    ensures (forall i :: 0 <= i < |links| ==> !Has(s, chat, links[i].link)) ==> r == links
    decreases |links|
  {
    if links == [] then []
    else
      var last := links[|links| - 1];
      assert links == links[..|links| - 1] + [last];
      NewLinks(s, chat, links[..|links| - 1]) + if Has(s, chat, last.link) then [] else [last]
  }

  /** The filter over one more listed link keeps it exactly when the chat has not seen it. */
  lemma NewLinksSnoc(s: Store, chat: ChatKey, links: seq<ObjectLink>, i: nat)
    requires i < |links|
    ensures NewLinks(s, chat, links[..i + 1])
      == NewLinks(s, chat, links[..i]) + if Has(s, chat, links[i].link) then [] else [links[i]]
  {
    assert links[..i + 1][..i] == links[..i];
  }

  /**
   * The filter keeps every unseen listing as often as it is listed, so the summary counts
   * a link listed twice twice, and drops every seen one.
   */
  lemma {:induction false} NewLinksCounts(s: Store, chat: ChatKey, links: seq<ObjectLink>)
    ensures forall x :: multiset(NewLinks(s, chat, links))[x] == if Has(s, chat, x.link) then 0 else multiset(links)[x]
    decreases |links|
  {
    if links != [] {
      var init, last := links[..|links| - 1], links[|links| - 1];
      assert links == init + [last];
      NewLinksCounts(s, chat, init);
    }
  }

  /** The filter keeps exactly the listed links the chat has not seen. */
  lemma {:induction false} NewLinksExact(s: Store, chat: ChatKey, links: seq<ObjectLink>)
    ensures forall x :: x in NewLinks(s, chat, links) <==> x in links && !Has(s, chat, x.link)
    decreases |links|
  {
    if links != [] {
      var init := links[..|links| - 1];
      NewLinksExact(s, chat, init);
      assert links == init + [links[|links| - 1]];
    }
  }

  /** Every call the loop over the listing makes is a detail fetch or a send to the chat. */
  predicate LoopCall(c: Call, chat: ChatKey) {
    c.FetchObject? || (c.SendMessage? && c.chat == chat) || (c.SendPhoto? && c.chat == chat)
  }

  /** Put the record, send its photo, and fall back to the bare link when that send fails. */
  function Deliver(s: Store, chat: ChatKey, link: ObjectLink, a: Apartment, sent: Status): Progress {
    Progress(
      Put(s, chat, link.link, a),
      [SendPhoto(chat, a.screenshot, Caption(a))] + if sent.Done? then [] else [SendMessage(chat, link.link)])
  }

  /** A link the chat has not seen: deliver the cached record, or fetch it first. */
  function Admit(t: Store, chat: ChatKey, link: ObjectLink, fetched: Result<Apartment>, sent: Status): Progress {
    if link.link in t.objects then Deliver(t, chat, link, t.objects[link.link], sent)
    else
      match fetched
      case Err(_) => Progress(t, [FetchObject(link), SendMessage(chat, link.link)])
      case Ok(a) =>
        var d := Deliver(t, chat, link, a, sent);
        Progress(d.store, [FetchObject(link)] + d.calls)
  }

  /**
   * One iteration of the loop in `fetchAndPublishObjects`, for the link at position i:
   * the cache afterwards and the calls this iteration makes.
   */
  function Step(s: Store, chat: ChatKey, links: seq<ObjectLink>, i: nat, o: Outcomes): (r: Progress)
    requires i < |links|
    ensures chat in r.store.objectsPerChat
    ensures forall c :: c != chat ==> ObjectLinks(r.store, c) == ObjectLinks(s, c)
    ensures ObjectLinks(s, chat) <= ObjectLinks(r.store, chat)
    ensures forall l :: l in s.objects ==> l in r.store.objects && r.store.objects[l] == s.objects[l]
    ensures forall j :: 0 <= j < |r.calls| ==> LoopCall(r.calls[j], chat)
    ensures forall j :: 0 <= j < |r.calls| && r.calls[j].FetchObject? ==>
      r.calls[j].target == links[i] && links[i].link !in s.objects && !Has(s, chat, links[i].link)
  {
    var link := links[i];
    var t := TouchChat(s, chat);
    if Has(t, chat, link.link) then Progress(t, [])
    else Admit(t, chat, link, o.fetch(i), o.photo(i))
  }

  lemma StepPreservesInv(s: Store, chat: ChatKey, links: seq<ObjectLink>, i: nat, o: Outcomes)
    requires i < |links| && Inv(s)
    ensures Inv(Step(s, chat, links, i, o).store)
  {
    var link := links[i];
    var t := TouchChat(s, chat);
    TouchChatPreservesInv(s, chat);
    if !Has(t, chat, link.link) {
      if link.link in t.objects {
        PutPreservesInv(t, chat, link.link, t.objects[link.link]);
      } else if o.fetch(i).Ok? {
        PutPreservesInv(t, chat, link.link, o.fetch(i).value);
      }
    }
  }

  /**
   * The first k iterations of the loop. The loop leaves every other chat's seen set
   * alone, only adds to this chat's, never changes a cached record, only fetches details
   * and sends to the chat, and leaves every link it could get a record for seen.
   */
  function Walk(s: Store, chat: ChatKey, links: seq<ObjectLink>, k: nat, o: Outcomes): (r: Progress)
    requires k <= |links|
    ensures k > 0 ==> chat in r.store.objectsPerChat
    ensures forall c :: c != chat ==> ObjectLinks(r.store, c) == ObjectLinks(s, c)
    ensures ObjectLinks(s, chat) <= ObjectLinks(r.store, chat)
    ensures forall l :: l in s.objects ==> l in r.store.objects && r.store.objects[l] == s.objects[l]
    ensures forall j :: 0 <= j < |r.calls| ==> LoopCall(r.calls[j], chat)
    ensures forall i :: 0 <= i < k && (o.fetch(i).Ok? || links[i].link in s.objects) ==>
      Has(r.store, chat, links[i].link)
  {
    if k == 0 then Progress(s, [])
    else
      var w := Walk(s, chat, links, k - 1, o);
      var st := Step(w.store, chat, links, k - 1, o);
      Progress(st.store, w.calls + st.calls)
  }

  /** One more iteration of the loop, written out. */
  lemma WalkUnfold(s: Store, chat: ChatKey, links: seq<ObjectLink>, k: nat, o: Outcomes)
    requires 0 < k <= |links|
    ensures var w := Walk(s, chat, links, k - 1, o);
      var st := Step(w.store, chat, links, k - 1, o);
      Walk(s, chat, links, k, o) == Progress(st.store, w.calls + st.calls)
  {
  }

  lemma {:induction false} WalkPreservesInv(s: Store, chat: ChatKey, links: seq<ObjectLink>, k: nat, o: Outcomes)
    requires k <= |links| && Inv(s)
    ensures Inv(Walk(s, chat, links, k, o).store)
    decreases k
  {
    if k > 0 {
      var w := Walk(s, chat, links, k - 1, o);
      WalkPreservesInv(s, chat, links, k - 1, o);
      StepPreservesInv(w.store, chat, links, k - 1, o);
      assert Walk(s, chat, links, k, o).store == Step(w.store, chat, links, k - 1, o).store;
    }
  }

  /** The calls before the summary: the launch when the browser is absent, then the listing. */
  function Listed(b: BrowserState, category: Category): seq<Call> {
    (if b == Absent then [LaunchBrowser] else []) + [FetchObjectLinks(category)]
  }

  /** The cache after the filter: `hasObject` creates the chat's seen set once it is asked. */
  function Filtered(s: Store, chat: ChatKey, links: seq<ObjectLink>): Store {
    if links == [] then s else TouchChat(s, chat)
  }

  /** The summary `sendPreview` sends for a listing. */
  function Summary(s: Store, chat: ChatKey, links: seq<ObjectLink>): Call {
    SendMessage(chat, PreviewText(|NewLinks(s, chat, links)|))
  }

  /** What `fetchAndPublishObjects` does once it has the listing: filter, summary, loop. */
  function PublishListing(s: Store, chat: ChatKey, links: seq<ObjectLink>, o: Outcomes): Effect {
    if o.preview.Failed? then Effect(Filtered(s, chat, links), Live, [Summary(s, chat, links)], o.preview)
    else
      var w := Walk(Filtered(s, chat, links), chat, links, |links|, o);
      Effect(w.store, Live, [Summary(s, chat, links)] + w.calls, Done)
  }

  /** `fetchAndPublishObjects(chatId, category)`. */
  function PublishRun(s: Store, b: BrowserState, chat: ChatKey, category: Category, o: Outcomes): Effect {
    if b == Absent && o.launch.Failed? then Effect(s, Absent, [LaunchBrowser], o.launch)
    else
      match o.listing
      case Err(m) => Effect(s, Live, Listed(b, category), Failed(m))
      case Ok(links) =>
        var e := PublishListing(s, chat, links, o);
        Effect(e.store, Live, Listed(b, category) + e.calls, e.status)
  }

  /** A run whose launch, listing and summary succeed, written out. */
  lemma PublishRunOk(s: Store, b: BrowserState, chat: ChatKey, category: Category, o: Outcomes)
    requires b == Live || o.launch.Done?
    requires o.listing.Ok? && o.preview.Done?
    ensures var links := o.listing.value;
      var w := Walk(Filtered(s, chat, links), chat, links, |links|, o);
      PublishRun(s, b, chat, category, o) == Effect(w.store, Live, Listed(b, category) + [Summary(s, chat, links)] + w.calls, Done)
  {
    var links := o.listing.value;
    var w := Walk(Filtered(s, chat, links), chat, links, |links|, o);
    Associative(Listed(b, category), [Summary(s, chat, links)], w.calls);
  }

  /** The end of `clearObjects`: close the browser and reset the maps once no record is cached. */
  function Teardown(s: Store, b: BrowserState, o: Outcomes): Effect {
    if |s.objects| == 0 && b == Live then
      match o.close
      case Done => Effect(Reset(s), Absent, [CloseBrowser], Done)
      case Failed(m) => Effect(s, Live, [CloseBrowser], Failed(m))
    else Effect(s, b, [], Done)
  }

  /** `clearObjects(chatId)`: clear the chat, report the count, then the teardown. */
  function ClearRun(s: Store, b: BrowserState, chat: ChatKey, o: Outcomes): Effect {
    var t := Teardown(ClearChat(s, chat), b, o);
    Effect(t.store, t.browser, [SendMessage(chat, ClearedText(|ObjectLinks(s, chat)|))] + t.calls, t.status)
  }

  /** The commands the bot answers: /apartments, /storage, /parking and /clear. */
  datatype Command = Publish(category: Category) | ClearAll

  function CommandRun(s: Store, b: BrowserState, chat: ChatKey, cmd: Command, o: Outcomes): Effect {
    match cmd
    case Publish(category) => PublishRun(s, b, chat, category, o)
    case ClearAll => ClearRun(s, b, chat, o)
  }

  /** `execute`: refuse unknown senders; run the command and report its failure otherwise. */
  function ExecuteRun(s: Store, b: BrowserState, parents: seq<string>, msg: Message, cmd: Command, o: Outcomes): Effect {
    if IsFromParent(parents, msg.from) then
      var e := CommandRun(s, b, msg.chat, cmd, o);
      if e.status.Failed? then Effect(e.store, e.browser, e.calls + [SendMessage(msg.chat, e.status.message)], Done)
      else e
    else Effect(s, b, [SendMessage(msg.chat, Refusal)], Done)
  }

  /** What the holiday calendar answers for today, when today is a holiday. */
  datatype Holiday = Holiday(name: string, kind: string)

  /** `isSwedishHoliday`: the name of a public holiday, or nothing. */
  function IsSwedishHoliday(h: Option<Holiday>): Option<string> {
    if h.Some? && h.value.kind == "public" then Some(h.value.name) else None
  }

  /** JavaScript truthiness of the value `isSwedishHoliday` returns: an empty name is false. */
  predicate Truthy(name: Option<string>) {
    name.Some? && name.value != ""
  }

  /** The poll job: publish apartments for the operator chat unless today is a holiday. */
  function PollRun(s: Store, b: BrowserState, operator: ChatKey, h: Option<Holiday>, o: Outcomes): Effect {
    if Truthy(IsSwedishHoliday(h)) then Effect(s, b, [], Done) else PublishRun(s, b, operator, Lagenhet, o)
  }

  /** The reset job: clear the operator chat unless today is a holiday. */
  function ResetRun(s: Store, b: BrowserState, operator: ChatKey, h: Option<Holiday>, o: Outcomes): Effect {
    if Truthy(IsSwedishHoliday(h)) then Effect(s, b, [], Done) else ClearRun(s, b, operator, o)
  }

  /** The holiday-notice job: on a holiday, tell the operator chat that polling is off. */
  function HolidayNoticeRun(operator: ChatKey, h: Option<Holiday>): seq<Call> {
    var name := IsSwedishHoliday(h);
    if Truthy(name) then [SendMessage(operator, HolidayText(name.value))] else []
  }

  // ---------------------------------------------------------------------------------------
  // Properties of the loop

  /**
   * Per-item failure containment: a link the chat has not seen is notified on its own,
   * whatever happens to it. A failed fetch puts nothing and sends the bare link; a record
   * obtained (from the cache, or fetched) is put and its photo sent, and a failed photo
   * send keeps the put and adds the bare link.
   */
  lemma StepContainment(s: Store, chat: ChatKey, links: seq<ObjectLink>, i: nat, o: Outcomes)
    requires i < |links| && !Has(s, chat, links[i].link)
    ensures var r := Step(s, chat, links, i, o);
      var link := links[i];
      var cached := link.link in s.objects;
      && (!cached && o.fetch(i).Err? ==>
            r.store == TouchChat(s, chat) && r.calls == [FetchObject(link), SendMessage(chat, link.link)])
      && (cached || o.fetch(i).Ok? ==>
            var a := if cached then s.objects[link.link] else o.fetch(i).value;
            && r.store == Put(TouchChat(s, chat), chat, link.link, a)
            && Has(r.store, chat, link.link)
            && r.calls == (if cached then [] else [FetchObject(link)])
                 + [SendPhoto(chat, a.screenshot, Caption(a))]
                 + (if o.photo(i).Done? then [] else [SendMessage(chat, link.link)]))
  {
  }

  /** A link the chat has already seen is skipped: nothing is fetched, put or sent. */
  lemma StepSkipsSeen(s: Store, chat: ChatKey, links: seq<ObjectLink>, i: nat, o: Outcomes)
    requires i < |links| && Has(s, chat, links[i].link)
    ensures Step(s, chat, links, i, o) == Progress(TouchChat(s, chat), [])
  {
  }

  /**
   * A failing iteration does not stop the loop: the calls of the first i iterations stay
   * in place as the first calls of every later prefix of the loop.
   */
  lemma {:induction false} WalkExtends(s: Store, chat: ChatKey, links: seq<ObjectLink>, i: nat, k: nat, o: Outcomes)
    requires i <= k <= |links|
    ensures Walk(s, chat, links, i, o).calls <= Walk(s, chat, links, k, o).calls
    decreases k
  {
    if i < k {
      var a, b, c := Walk(s, chat, links, i, o).calls, Walk(s, chat, links, k - 1, o).calls, Walk(s, chat, links, k, o).calls;
      WalkExtends(s, chat, links, i, k - 1, o);
      assert a <= b;
      WalkGrows(s, chat, links, k, o);
      assert b <= c;
      PrefixTransitive(a, b, c);
    }
  }

  /**
   * No failure elsewhere in the listing stops a later link from being notified: a link the
   * chat has not seen when its turn comes gets its photo, or its bare link when no record
   * can be had, among the calls of every longer run of the loop.
   */
  lemma WalkDelivers(s: Store, chat: ChatKey, links: seq<ObjectLink>, j: nat, k: nat, o: Outcomes)
    requires j < k <= |links|
    requires !Has(Walk(s, chat, links, j, o).store, chat, links[j].link)
    ensures var t := Walk(s, chat, links, j, o).store;
      var link := links[j];
      var calls := Walk(s, chat, links, k, o).calls;
      if link.link in t.objects || o.fetch(j).Ok? then
        var a := if link.link in t.objects then t.objects[link.link] else o.fetch(j).value;
        SendPhoto(chat, a.screenshot, Caption(a)) in calls
      else SendMessage(chat, link.link) in calls
  {
    var w := Walk(s, chat, links, j, o);
    var st := Step(w.store, chat, links, j, o);
    var link := links[j];
    var x := if link.link in w.store.objects || o.fetch(j).Ok? then
        var a := if link.link in w.store.objects then w.store.objects[link.link] else o.fetch(j).value;
        SendPhoto(chat, a.screenshot, Caption(a))
      else SendMessage(chat, link.link);
    StepDelivers(w.store, chat, links, j, o);
    assert x in st.calls;
    WalkUnfold(s, chat, links, j + 1, o);
    WalkExtends(s, chat, links, j + 1, k, o);
    var ck := Walk(s, chat, links, k, o).calls;
    assert w.calls + st.calls <= ck;
    KeptInLonger(x, w.calls, st.calls, ck);
  }

  /** The notification one iteration sends for a link the chat has not seen. */
  lemma StepDelivers(t: Store, chat: ChatKey, links: seq<ObjectLink>, j: nat, o: Outcomes)
    requires j < |links| && !Has(t, chat, links[j].link)
    ensures var link := links[j];
      var calls := Step(t, chat, links, j, o).calls;
      if link.link in t.objects || o.fetch(j).Ok? then
        var a := if link.link in t.objects then t.objects[link.link] else o.fetch(j).value;
        SendPhoto(chat, a.screenshot, Caption(a)) in calls
      else SendMessage(chat, link.link) in calls
  {
    StepContainment(t, chat, links, j, o);
  }

  /** A call of the later part of a prefix is a call of the longer trace. */
  lemma KeptInLonger(x: Call, m: seq<Call>, t: seq<Call>, c: seq<Call>)
    requires x in t && m + t <= c
    ensures x in c
  {
    var p :| 0 <= p < |t| && t[p] == x;
    assert (m + t)[|m| + p] == x;
  }

  /** One more iteration only appends calls. */
  lemma WalkGrows(s: Store, chat: ChatKey, links: seq<ObjectLink>, k: nat, o: Outcomes)
    requires 0 < k <= |links|
    ensures Walk(s, chat, links, k - 1, o).calls <= Walk(s, chat, links, k, o).calls
  {
    var w := Walk(s, chat, links, k - 1, o);
    var st := Step(w.store, chat, links, k - 1, o);
    WalkUnfold(s, chat, links, k, o);
    PrefixOfAppend(w.calls, st.calls);
  }

  lemma PrefixOfAppend(m: seq<Call>, t: seq<Call>)
    ensures m <= m + t
  {
    assert (m + t)[..|m|] == m;
  }

  lemma PrefixTransitive(a: seq<Call>, b: seq<Call>, c: seq<Call>)
    requires a <= b && b <= c
    ensures a <= c
  {
    assert c[..|a|] == b[..|a|];
  }

  /** Every detail fetch in `calls` is for a listed link that `s` neither caches nor shows the chat as seen. */
  ghost predicate FetchesFresh(calls: seq<Call>, s: Store, chat: ChatKey, links: seq<ObjectLink>) {
    forall j :: 0 <= j < |calls| && calls[j].FetchObject? ==>
      calls[j].target in links && calls[j].target.link !in s.objects && !Has(s, chat, calls[j].target.link)
  }

  lemma FetchesFreshAppend(a: seq<Call>, b: seq<Call>, s: Store, chat: ChatKey, links: seq<ObjectLink>)
    requires FetchesFresh(a, s, chat, links) && FetchesFresh(b, s, chat, links)
    ensures FetchesFresh(a + b, s, chat, links)
  {
    forall j | 0 <= j < |a + b| && (a + b)[j].FetchObject?
      ensures (a + b)[j].target in links && (a + b)[j].target.link !in s.objects && !Has(s, chat, (a + b)[j].target.link)
    {
      if j >= |a| {
        assert (a + b)[j] == b[j - |a|];
      }
    }
  }

  /** A detail fetch happens only for a link the chat had not seen and the cache did not hold. */
  lemma {:induction false} CachedNeverFetched(s: Store, chat: ChatKey, links: seq<ObjectLink>, k: nat, o: Outcomes)
    requires k <= |links|
    ensures FetchesFresh(Walk(s, chat, links, k, o).calls, s, chat, links)
    decreases k
  {
    if k > 0 {
      CachedNeverFetched(s, chat, links, k - 1, o);
      WalkUnfold(s, chat, links, k, o);
      var w := Walk(s, chat, links, k - 1, o);
      var st := Step(w.store, chat, links, k - 1, o);
      assert links[k - 1] in links;
      assert FetchesFresh(st.calls, s, chat, links);
      FetchesFreshAppend(w.calls, st.calls, s, chat, links);
    }
  }

  /** When the chat has seen every listed link, the loop makes no call and changes no seen set. */
  lemma {:induction false} AllSeenIsQuiet(s: Store, chat: ChatKey, links: seq<ObjectLink>, k: nat, o: Outcomes)
    requires k <= |links|
    requires forall i :: 0 <= i < |links| ==> Has(s, chat, links[i].link)
    ensures Walk(s, chat, links, k, o).calls == []
    ensures Walk(s, chat, links, k, o).store == if k == 0 then s else TouchChat(s, chat)
    decreases k
  {
    if k > 0 {
      WalkUnfold(s, chat, links, k, o);
      AllSeenIsQuiet(s, chat, links, k - 1, o);
      var w := Walk(s, chat, links, k - 1, o);
      assert Has(w.store, chat, links[k - 1].link);
      StepSkipsSeen(w.store, chat, links, k - 1, o);
    }
  }

  lemma {:induction false} NewLinksNoneWhenAllSeen(s: Store, chat: ChatKey, links: seq<ObjectLink>)
    requires forall i :: 0 <= i < |links| ==> Has(s, chat, links[i].link)
    ensures NewLinks(s, chat, links) == []
    decreases |links|
  {
    if links != [] {
      var init := links[..|links| - 1];
      NewLinksNoneWhenAllSeen(s, chat, init);
    }
  }

  // ---------------------------------------------------------------------------------------
  // Properties of a whole run

  /** The loop neither launches nor closes the browser. */
  lemma LoopLeavesBrowser(s: Store, chat: ChatKey, links: seq<ObjectLink>, o: Outcomes)
    ensures var w := Walk(s, chat, links, |links|, o);
      LaunchBrowser !in w.calls && CloseBrowser !in w.calls
  {
  }

  /** The browser is launched exactly when it was not running, and a run never closes it. */
  lemma PublishRunLaunch(s: Store, b: BrowserState, chat: ChatKey, category: Category, o: Outcomes)
    ensures var r := PublishRun(s, b, chat, category, o);
      && (LaunchBrowser in r.calls <==> b == Absent)
      && CloseBrowser !in r.calls
      && r.browser == (if b == Absent && o.launch.Failed? then Absent else Live)
  {
    var r := PublishRun(s, b, chat, category, o);
    if b == Absent && o.launch.Failed? {
      assert r.calls == [LaunchBrowser];
    } else if o.listing.Err? {
      assert r.calls == Listed(b, category);
    } else {
      var links := o.listing.value;
      var e := PublishListing(s, chat, links, o);
      assert r.calls == Listed(b, category) + e.calls;
      LoopLeavesBrowser(Filtered(s, chat, links), chat, links, o);
      assert LaunchBrowser !in e.calls && CloseBrowser !in e.calls;
    }
  }

  /** A run keeps the cache invariant, changes no other chat's seen set and only adds to this chat's. */
  lemma PublishRunKeeps(s: Store, b: BrowserState, chat: ChatKey, category: Category, o: Outcomes)
    ensures var r := PublishRun(s, b, chat, category, o);
      && (Inv(s) ==> Inv(r.store))
      && (forall c :: c != chat ==> ObjectLinks(r.store, c) == ObjectLinks(s, c))
      && ObjectLinks(s, chat) <= ObjectLinks(r.store, chat)
  {
    if (b == Live || o.launch.Done?) && o.listing.Ok? {
      var links := o.listing.value;
      if Inv(s) {
        TouchChatPreservesInv(s, chat);
      }
      if o.preview.Done? {
        PublishRunOk(s, b, chat, category, o);
        if Inv(s) {
          WalkPreservesInv(Filtered(s, chat, links), chat, links, |links|, o);
        }
      }
    }
  }

  lemma PublishRunKeepsInv(s: Store, b: BrowserState, chat: ChatKey, category: Category, o: Outcomes)
    requires Inv(s)
    ensures Inv(PublishRun(s, b, chat, category, o).store)
  {
    PublishRunKeeps(s, b, chat, category, o);
  }

  /**
   * After a successful listing and summary, the summary counts the listed positions whose
   * link the chat had not seen, and every link whose record could be obtained is now seen.
   */
  lemma PublishRunSummary(s: Store, b: BrowserState, chat: ChatKey, category: Category, o: Outcomes)
    requires b == Live || o.launch.Done?
    requires o.listing.Ok? && o.preview.Done?
    ensures var r := PublishRun(s, b, chat, category, o);
      var links := o.listing.value;
      var n := if b == Absent then 1 else 0;
      && r.status == Done
      && r.calls[n] == FetchObjectLinks(category)
      && r.calls[n + 1] == SendMessage(chat, PreviewText(|NewLinks(s, chat, links)|))
      && (forall i :: 0 <= i < |links| && (o.fetch(i).Ok? || links[i].link in s.objects || Has(s, chat, links[i].link)) ==>
            Has(r.store, chat, links[i].link))
  {
    PublishRunOk(s, b, chat, category, o);
  }

  /**
   * A run over a listing the chat has seen in full reports no new objects, makes no other
   * call after the listing and changes nothing in the cache.
   */
  lemma PublishRunAllSeen(s: Store, chat: ChatKey, category: Category, o: Outcomes)
    requires o.listing.Ok? && o.preview.Done?
    requires forall i :: 0 <= i < |o.listing.value| ==> Has(s, chat, o.listing.value[i].link)
    ensures PublishRun(s, Live, chat, category, o)
         == Effect(s, Live, [FetchObjectLinks(category), SendMessage(chat, "Found no new objects.")], Done)
  {
    var links := o.listing.value;
    PublishRunOk(s, Live, chat, category, o);
    NewLinksNoneWhenAllSeen(s, chat, links);
    if links != [] {
      assert Has(s, chat, links[0].link);
      assert Filtered(s, chat, links) == s;
    }
    AllSeenIsQuiet(s, chat, links, |links|, o);
  }

  /**
   * End to end: when every detail fetch of a run succeeds, every listed link is seen
   * afterwards, and a second run over the same listing reports no new objects, sends
   * nothing else and leaves the cache as it was.
   */
  lemma RerunIsQuiet(s: Store, b: BrowserState, chat: ChatKey, category: Category, o1: Outcomes, o2: Outcomes)
    requires b == Live || o1.launch.Done?
    requires o1.listing.Ok? && o1.preview.Done?
    requires forall i :: 0 <= i < |o1.listing.value| ==> o1.fetch(i).Ok?
    requires o2.listing == o1.listing && o2.preview.Done?
    ensures var r1 := PublishRun(s, b, chat, category, o1);
      var r2 := PublishRun(r1.store, r1.browser, chat, category, o2);
      && (forall i :: 0 <= i < |o1.listing.value| ==> Has(r1.store, chat, o1.listing.value[i].link))
      && r2 == Effect(r1.store, Live, [FetchObjectLinks(category), SendMessage(chat, "Found no new objects.")], Done)
  {
    var r1 := PublishRun(s, b, chat, category, o1);
    PublishRunOk(s, b, chat, category, o1);
    PublishRunSummary(s, b, chat, category, o1);
    PublishRunAllSeen(r1.store, chat, category, o2);
  }

  /** The loop over a listing that repeats an unseen link fetches and sends it once. */
  lemma WalkRepeatedLink(s: Store, chat: ChatKey, link: ObjectLink, o: Outcomes)
    requires !Has(s, chat, link.link) && link.link !in s.objects
    requires o.fetch(0).Ok? && o.photo(0).Done?
    ensures var a := o.fetch(0).value;
      Walk(s, chat, [link, link], 2, o).calls == [FetchObject(link), SendPhoto(chat, a.screenshot, Caption(a))]
  {
    var links := [link, link];
    var s0 := Step(s, chat, links, 0, o);
    StepContainment(s, chat, links, 0, o);
    StepSkipsSeen(s0.store, chat, links, 1, o);
    WalkUnfold(s, chat, links, 1, o);
    WalkUnfold(s, chat, links, 2, o);
    assert Walk(s, chat, links, 1, o).calls == s0.calls;
  }

  /**
   * The listing repeats a link the chat has not seen: the summary counts it twice, but the
   * second occurrence is skipped because the loop asks `hasObject` again.
   */
  lemma DuplicateCountedOnceDelivered(s: Store, chat: ChatKey, link: ObjectLink, category: Category, o: Outcomes)
    requires !Has(s, chat, link.link) && link.link !in s.objects
    requires o.listing == Ok([link, link]) && o.preview.Done? && o.fetch(0).Ok? && o.photo(0).Done?
    ensures var r := PublishRun(s, Live, chat, category, o);
      var a := o.fetch(0).value;
      r.calls == [FetchObjectLinks(category), SendMessage(chat, "Found 2 new objects."),
                  FetchObject(link), SendPhoto(chat, a.screenshot, Caption(a))]
  {
    var links := [link, link];
    PublishRunOk(s, Live, chat, category, o);
    assert NewLinks(s, chat, links) == links;
    PreviewTextTwoThree();
    WalkRepeatedLink(TouchChat(s, chat), chat, link, o);
    assert Filtered(s, chat, links) == TouchChat(s, chat);
  }

  /** Putting one link into a chat's seen set leaves every other link unseen and uncached. */
  lemma PutKeepsOthersFresh(s: Store, chat: ChatKey, link: Link, a: Apartment, l: Link)
    requires l != link && !Has(s, chat, l) && l !in s.objects
    ensures var r := Put(TouchChat(s, chat), chat, link, a); !Has(r, chat, l) && l !in r.objects
  {
    var t := TouchChat(s, chat);
    assert Get(Put(t, chat, link, a), l) == Get(t, l);
  }

  /** The loop over three unseen links whose second fetch fails. */
  lemma WalkMiddleFailure(s: Store, chat: ChatKey, l1: ObjectLink, l2: ObjectLink, l3: ObjectLink, o: Outcomes)
    requires l1.link != l2.link && l2.link != l3.link && l1.link != l3.link
    requires !Has(s, chat, l1.link) && !Has(s, chat, l2.link) && !Has(s, chat, l3.link)
    requires l1.link !in s.objects && l2.link !in s.objects && l3.link !in s.objects
    requires o.fetch(0).Ok? && o.fetch(1).Err? && o.fetch(2).Ok?
    requires o.photo(0).Done? && o.photo(2).Done?
    ensures var w := Walk(s, chat, [l1, l2, l3], 3, o);
      var a1, a3 := o.fetch(0).value, o.fetch(2).value;
      && w.calls == [FetchObject(l1), SendPhoto(chat, a1.screenshot, Caption(a1))]
                  + [FetchObject(l2), SendMessage(chat, l2.link)]
                  + [FetchObject(l3), SendPhoto(chat, a3.screenshot, Caption(a3))]
      && Has(w.store, chat, l1.link) && !Has(w.store, chat, l2.link) && Has(w.store, chat, l3.link)
  {
    var links := [l1, l2, l3];
    var a1, a3 := o.fetch(0).value, o.fetch(2).value;
    var s0 := Step(s, chat, links, 0, o);
    StepContainment(s, chat, links, 0, o);
    PutKeepsOthersFresh(s, chat, l1.link, a1, l2.link);
    PutKeepsOthersFresh(s, chat, l1.link, a1, l3.link);
    assert s0.calls == [FetchObject(l1), SendPhoto(chat, a1.screenshot, Caption(a1))];
    var s1 := Step(s0.store, chat, links, 1, o);
    StepContainment(s0.store, chat, links, 1, o);
    assert s1.calls == [FetchObject(l2), SendMessage(chat, l2.link)];
    var s2 := Step(s1.store, chat, links, 2, o);
    StepContainment(s1.store, chat, links, 2, o);
    assert s2.calls == [FetchObject(l3), SendPhoto(chat, a3.screenshot, Caption(a3))];
    WalkUnfold(s, chat, links, 1, o);
    WalkUnfold(s, chat, links, 2, o);
    WalkUnfold(s, chat, links, 3, o);
    assert Walk(s, chat, links, 1, o) == s0;
    assert Walk(s, chat, links, 2, o) == Progress(s1.store, s0.calls + s1.calls);
  }

  /** From the empty cache every listed link is new, and the summary counts them all. */
  lemma PublishFromEmpty(chat: ChatKey, category: Category, o: Outcomes)
    requires o.listing.Ok? && |o.listing.value| > 0 && o.preview.Done?
    ensures var links := o.listing.value;
      var w := Walk(TouchChat(Empty, chat), chat, links, |links|, o);
      PublishRun(Empty, Live, chat, category, o)
        == Effect(w.store, Live, [FetchObjectLinks(category), SendMessage(chat, PreviewText(|links|))] + w.calls, Done)
  {
    var links := o.listing.value;
    PublishRunLive(Empty, chat, category, o);
    SummaryFromEmpty(chat, links);
    assert Filtered(Empty, chat, links) == TouchChat(Empty, chat);
  }

  /** A run with a live browser whose listing and summary succeed, written out. */
  lemma PublishRunLive(s: Store, chat: ChatKey, category: Category, o: Outcomes)
    requires o.listing.Ok? && o.preview.Done?
    ensures var links := o.listing.value;
      var w := Walk(Filtered(s, chat, links), chat, links, |links|, o);
      PublishRun(s, Live, chat, category, o) == Effect(w.store, Live, [FetchObjectLinks(category), Summary(s, chat, links)] + w.calls, Done)
  {
    var links := o.listing.value;
    var w := Walk(Filtered(s, chat, links), chat, links, |links|, o);
    ListingDelivered(s, chat, links, o);
    RunLiveListed(s, chat, category, o);
    Associative([FetchObjectLinks(category)], [Summary(s, chat, links)], w.calls);
  }

  lemma ListingDelivered(s: Store, chat: ChatKey, links: seq<ObjectLink>, o: Outcomes)
    requires o.preview.Done?
    ensures var w := Walk(Filtered(s, chat, links), chat, links, |links|, o);
      PublishListing(s, chat, links, o) == Effect(w.store, Live, [Summary(s, chat, links)] + w.calls, Done)
  {
  }

  lemma RunLiveListed(s: Store, chat: ChatKey, category: Category, o: Outcomes)
    requires o.listing.Ok?
    ensures var e := PublishListing(s, chat, o.listing.value, o);
      PublishRun(s, Live, chat, category, o) == Effect(e.store, Live, [FetchObjectLinks(category)] + e.calls, e.status)
  {
    assert Listed(Live, category) == [FetchObjectLinks(category)];
  }

  /** Nothing is seen in the empty cache, so its summary counts the whole listing. */
  lemma SummaryFromEmpty(chat: ChatKey, links: seq<ObjectLink>)
    ensures Summary(Empty, chat, links) == SendMessage(chat, PreviewText(|links|))
  {
    assert forall i :: 0 <= i < |links| ==> !Has(Empty, chat, links[i].link);
  }

  /**
   * Three new listings, the second of which cannot be fetched: one summary, the first
   * listing's photo, the second's bare link, the third's photo; the batch does not stop.
   */
  lemma MiddleFailureContained(chat: ChatKey, l1: ObjectLink, l2: ObjectLink, l3: ObjectLink, category: Category, o: Outcomes)
    requires l1.link != l2.link && l2.link != l3.link && l1.link != l3.link
    requires o.listing == Ok([l1, l2, l3]) && o.preview.Done?
    requires o.fetch(0).Ok? && o.fetch(1).Err? && o.fetch(2).Ok?
    requires o.photo(0).Done? && o.photo(2).Done?
    ensures var r := PublishRun(Empty, Live, chat, category, o);
      var a1, a3 := o.fetch(0).value, o.fetch(2).value;
      && r.calls == [FetchObjectLinks(category), SendMessage(chat, "Found 3 new objects."),
                     FetchObject(l1), SendPhoto(chat, a1.screenshot, Caption(a1)),
                     FetchObject(l2), SendMessage(chat, l2.link),
                     FetchObject(l3), SendPhoto(chat, a3.screenshot, Caption(a3))]
      && Has(r.store, chat, l1.link) && !Has(r.store, chat, l2.link) && Has(r.store, chat, l3.link)
  {
    var t := TouchChat(Empty, chat);
    PublishFromEmpty(chat, category, o);
    PreviewTextTwoThree();
    assert forall l :: !Has(t, chat, l) && l !in t.objects;
    WalkMiddleFailure(t, chat, l1, l2, l3, o);
    var a1, a3 := o.fetch(0).value, o.fetch(2).value;
    Flatten(FetchObjectLinks(category), SendMessage(chat, "Found 3 new objects."),
      FetchObject(l1), SendPhoto(chat, a1.screenshot, Caption(a1)),
      FetchObject(l2), SendMessage(chat, l2.link),
      FetchObject(l3), SendPhoto(chat, a3.screenshot, Caption(a3)));
  }

  lemma Flatten(x1: Call, x2: Call, x3: Call, x4: Call, x5: Call, x6: Call, x7: Call, x8: Call)
    ensures [x1, x2] + ([x3, x4] + [x5, x6] + [x7, x8]) == [x1, x2, x3, x4, x5, x6, x7, x8]
  {
  }

  // ---------------------------------------------------------------------------------------
  // Properties of clearing and of the browser teardown

  /** Under the invariant, clearing a chat leaves the cache empty exactly when no other chat has seen anything. */
  lemma ClearedEmptyIffNoOtherHolder(s: Store, chat: ChatKey)
    requires Inv(s)
    ensures |ClearChat(s, chat).objects| == 0 <==> NoOtherHolder(s, chat)
  {
    var r := ClearChat(s, chat);
    ClearChatSpec(s, chat);
    ClearChatPreservesInv(s, chat);
    if |r.objects| == 0 {
      forall c, l | c != chat ensures !Has(s, c, l) {
        assert l in ObjectLinks(r, c) ==> c in References(r, l);
      }
    } else {
      var l :| l in r.objects;
      var c :| c in References(r, l);
      assert c != chat && Has(s, c, l);
    }
  }

  /**
   * `clearObjects` reports the size of the chat's seen set before the call, leaves that
   * set empty, changes no other chat's seen set and keeps the cache invariant.
   */
  lemma ClearRunClears(s: Store, b: BrowserState, chat: ChatKey, o: Outcomes)
    requires Inv(s)
    ensures var r := ClearRun(s, b, chat, o);
      && r.calls[0] == SendMessage(chat, ClearedText(|ObjectLinks(s, chat)|))
      && ObjectLinks(r.store, chat) == {}
      && (forall c :: c != chat ==> ObjectLinks(r.store, c) == ObjectLinks(s, c))
      && Inv(r.store)
  {
    var cleared := ClearChat(s, chat);
    ClearChatSpec(s, chat);
    ClearChatPreservesInv(s, chat);
    if |cleared.objects| == 0 && b == Live && o.close.Done? {
      ResetKeepsView(cleared);
      assert ClearRun(s, b, chat, o).store == Reset(cleared);
    } else {
      assert ClearRun(s, b, chat, o).store == cleared;
    }
  }

  lemma ClearRunKeepsInv(s: Store, b: BrowserState, chat: ChatKey, o: Outcomes)
    requires Inv(s)
    ensures Inv(ClearRun(s, b, chat, o).store)
  {
    ClearRunClears(s, b, chat, o);
  }

  /** The browser is closed exactly when it runs and no other chat holds anything. */
  lemma ClearRunCloses(s: Store, b: BrowserState, chat: ChatKey, o: Outcomes)
    requires Inv(s)
    ensures CloseBrowser in ClearRun(s, b, chat, o).calls <==> b == Live && NoOtherHolder(s, chat)
  {
    var cleared := ClearChat(s, chat);
    ClearedEmptyIffNoOtherHolder(s, chat);
    var reported := [SendMessage(chat, ClearedText(|ObjectLinks(s, chat)|))];
    assert CloseBrowser !in reported;
    if |cleared.objects| == 0 && b == Live {
      assert CloseBrowser in ClearRun(s, b, chat, o).calls;
    }
  }

  /**
   * Clearing leaves the browser absent exactly when it was absent or was closed
   * successfully, and a close resets it and empties both index maps.
   */
  lemma ClearRunTeardown(s: Store, b: BrowserState, chat: ChatKey, o: Outcomes)
    ensures var r := ClearRun(s, b, chat, o);
      && (r.browser == Absent <==> b == Absent || (CloseBrowser in r.calls && o.close.Done?))
      && (b == Live && r.browser == Absent ==> r.store.objectsPerChat == map[] && r.store.referencesInChats == map[])
  {
    var reported := [SendMessage(chat, ClearedText(|ObjectLinks(s, chat)|))];
    assert CloseBrowser !in reported;
  }

  // ---------------------------------------------------------------------------------------
  // Properties of the gate and of the schedule

  /**
   * A command runs only for a sender on the allow-list: anyone else, and a message without
   * a sender, gets the refusal and changes nothing. An allowed command's own failure is
   * reported to the chat after the calls it made.
   */
  lemma ExecuteGate(s: Store, b: BrowserState, parents: seq<string>, msg: Message, cmd: Command, o: Outcomes)
    ensures var r := ExecuteRun(s, b, parents, msg, cmd, o);
      var e := CommandRun(s, b, msg.chat, cmd, o);
      && (!IsFromParent(parents, msg.from) ==>
            r.store == s && r.browser == b && r.calls == [SendMessage(msg.chat, Refusal)])
      && (msg.from.None? ==> r.calls == [SendMessage(msg.chat, Refusal)])
      && (IsFromParent(parents, msg.from) ==>
            r.store == e.store && r.browser == e.browser &&
            r.calls == e.calls + (if e.status.Failed? then [SendMessage(msg.chat, e.status.message)] else []))
      && r.status == Done
  {
  }

  /**
   * On a public holiday with a name, the poll and reset jobs do nothing and the notice
   * job sends one message naming the holiday; otherwise the poll and reset jobs run and
   * the notice job sends nothing.
   */
  lemma HolidaySuppression(s: Store, b: BrowserState, operator: ChatKey, h: Option<Holiday>, o: Outcomes)
    ensures Truthy(IsSwedishHoliday(h)) ==>
      && PollRun(s, b, operator, h, o) == Effect(s, b, [], Done)
      && ResetRun(s, b, operator, h, o) == Effect(s, b, [], Done)
      && |HolidayNoticeRun(operator, h)| == 1
      && var m := HolidayNoticeRun(operator, h)[0];
         m.SendMessage? && m.chat == operator && m.text[10..10 + |h.value.name|] == h.value.name
    ensures !Truthy(IsSwedishHoliday(h)) ==>
      && PollRun(s, b, operator, h, o) == PublishRun(s, b, operator, Lagenhet, o)
      && ResetRun(s, b, operator, h, o) == ClearRun(s, b, operator, o)
      && HolidayNoticeRun(operator, h) == []
  {
  }
}
