/**
 * The bot process: the three cache maps, the browser handle and the external calls made so
 * far, updated in place by the module-level functions of the bot. Every method is proved
 * to do what the corresponding function of `Cache` or `Notifier` says.
 */
module Bot {
  import opened Types
  import opened Text
  import opened Auth
  import opened Cache
  import opened Notifier

  class NotifierBot {
    /** `objects_per_chat`: the links each chat has seen. */
    var objectsPerChat: map<ChatKey, set<Link>>
    /** `references_in_chats`: the chats holding each link. */
    var referencesInChats: map<Link, set<ChatKey>>
    /** `objects`: the shared detail records. */
    var objects: map<Link, Apartment>
    /** `browser`: undefined until the first run launches it. */
    var browser: BrowserState
    /** Every call made into the messaging transport or the browser automation, in order. */
    var calls: seq<Call>
    /** `PARENTS`: the allow-list of sender ids. */
    const parents: seq<string>
    /** `CHAT_ID`: the chat the schedule reports to. */
    const operator: ChatKey

    /** The three maps as one value. */
    function State(): Store
      reads this
    {
      Store(objectsPerChat, referencesInChats, objects)
    }

    /** Startup: empty maps, no browser, the allow-list and the operator chat from the environment. */
    constructor (parentsEnv: Option<string>, chatIdEnv: Option<string>)
      ensures State() == Empty && Inv(State())
      ensures browser == Absent && calls == []
      ensures parents == Parents(parentsEnv)
      ensures operator == if chatIdEnv.Some? then chatIdEnv.value else ""
    {
      objectsPerChat := map[];
      referencesInChats := map[];
      objects := map[];
      browser := Absent;
      calls := [];
      parents := Parents(parentsEnv);
      operator := if chatIdEnv.Some? then chatIdEnv.value else "";
    }

    /** `getObjectLinks`: the chat's seen set, created empty on first use. */
    method GetObjectLinks(chat: ChatKey) returns (links: set<Link>)
      modifies this
      ensures links == ObjectLinks(old(State()), chat)
      ensures objectsPerChat == if chat in old(objectsPerChat) then old(objectsPerChat) else old(objectsPerChat)[chat := {}]
      ensures referencesInChats == old(referencesInChats) && objects == old(objects)
      ensures browser == old(browser) && calls == old(calls)
    {
      if chat in objectsPerChat {
        links := objectsPerChat[chat];
      } else {
        links := {};
        objectsPerChat := objectsPerChat[chat := links];
      }
    }

    /** `getReferences`: the link's holders, created empty on first use. */
    method GetReferences(link: Link) returns (holders: set<ChatKey>)
      modifies this
      ensures holders == References(old(State()), link)
      ensures referencesInChats == if link in old(referencesInChats) then old(referencesInChats) else old(referencesInChats)[link := {}]
      ensures objectsPerChat == old(objectsPerChat) && objects == old(objects)
      ensures browser == old(browser) && calls == old(calls)
    {
      if link in referencesInChats {
        holders := referencesInChats[link];
      } else {
        holders := {};
        referencesInChats := referencesInChats[link := holders];
      }
    }

    /** `hasObject`: whether the chat has seen the link; asking creates the chat's seen set. */
    method HasObject(chat: ChatKey, link: Link) returns (seen: bool)
      modifies this
      ensures seen == Has(old(State()), chat, link)
      ensures State() == TouchChat(old(State()), chat)
      ensures browser == old(browser) && calls == old(calls)
    {
      var links := GetObjectLinks(chat);
      seen := link in links;
    }

    /** `getObject`: the cached record, whichever chat asks. */
    method GetObject(link: Link) returns (a: Option<Apartment>)
      ensures a == Get(State(), link)
      ensures a.Some? <==> link in objects
    {
      if link in objects {
        a := Some(objects[link]);
      } else {
        a := None;
      }
    }

    /** `putObject`. */
    method PutObject(chat: ChatKey, link: Link, a: Apartment)
      modifies this
      ensures State() == Put(old(State()), chat, link, a)
      ensures browser == old(browser) && calls == old(calls)
    {
      ghost var s := State();
      var links := GetObjectLinks(chat);
      objectsPerChat := objectsPerChat[chat := links + {link}];
      assert objectsPerChat == s.objectsPerChat[chat := ObjectLinks(s, chat) + {link}];
      var holders := GetReferences(link);
      referencesInChats := referencesInChats[link := holders + {chat}];
      assert referencesInChats == s.referencesInChats[link := References(s, link) + {chat}];
      objects := objects[link := a];
    }

    /** `clearObject`. */
    method ClearObject(chat: ChatKey, link: Link)
      modifies this
      ensures State() == ClearOne(old(State()), chat, link)
      ensures browser == old(browser) && calls == old(calls)
    {
      ghost var s := State();
      ForgetLink(chat, link);
      ReleaseLink(chat, link);
      assert State() == ClearOne(s, chat, link);
    }

    /** The first step of `clearObject`: drop the link from the chat's seen set. */
    method ForgetLink(chat: ChatKey, link: Link)
      modifies this
      ensures objectsPerChat == old(objectsPerChat)[chat := ObjectLinks(old(State()), chat) - {link}]
      ensures referencesInChats == old(referencesInChats) && objects == old(objects)
      ensures browser == old(browser) && calls == old(calls)
    {
      var links := GetObjectLinks(chat);
      objectsPerChat := objectsPerChat[chat := links - {link}];
    }

    /** The rest of `clearObject`: drop the chat from the link's holders, and the record once none is left. */
    method ReleaseLink(chat: ChatKey, link: Link)
      modifies this
      ensures var holders := References(old(State()), link) - {chat};
        && referencesInChats == old(referencesInChats)[link := holders]
        && objects == if holders == {} then old(objects) - {link} else old(objects)
      ensures objectsPerChat == old(objectsPerChat)
      ensures browser == old(browser) && calls == old(calls)
    {
      var holders := GetReferences(link);
      holders := holders - {chat};
      referencesInChats := referencesInChats[link := holders];
      if |holders| == 0 {
        objects := objects - {link};
      }
      assert holders == {} <==> |holders| == 0;
    }

    /** `objectLinks.forEach(link => clearObject(chatId, link))`, in any order. */
    method ClearEach(chat: ChatKey, links: set<Link>)
      requires chat in objectsPerChat
      modifies this
      ensures State() == ClearLinks(old(State()), chat, links)
      ensures browser == old(browser) && calls == old(calls)
    {
      ghost var t := State();
      var remaining := links;
      ghost var done: set<Link> := {};
      ClearLinksNone(t, chat);
      while remaining != {}
        invariant remaining !! done && remaining + done == links
        invariant State() == ClearLinks(t, chat, done)
        invariant browser == old(browser) && calls == old(calls)
        decreases remaining
      {
        var link :| link in remaining;
        ClearLinksStep(t, chat, done, link);
        ClearObject(chat, link);
        done := done + {link};
        remaining := remaining - {link};
      }
    }

    /**
     * The first half of `clearObjects`: clear every link the chat has seen, one
     * `clearObject` at a time and in any order, then empty its seen set.
     */
    method ClearSeen(chat: ChatKey) returns (count: nat)
      modifies this
      ensures count == |ObjectLinks(old(State()), chat)|
      ensures State() == ClearChat(old(State()), chat)
      ensures browser == old(browser) && calls == old(calls)
    {
      var seen := GetObjectLinks(chat);
      count := |seen|;
      ClearEach(chat, seen);
      objectsPerChat := objectsPerChat[chat := {}];
    }

    /** The end of `clearObjects`: once no record is cached, close the browser and reset both index maps. */
    method CloseIfEmpty(o: Outcomes) returns (status: Status)
      modifies this
      ensures var e := Teardown(old(State()), old(browser), o);
        State() == e.store && browser == e.browser && calls == old(calls) + e.calls && status == e.status
    {
      status := Done;
      if |objects| == 0 && browser == Live {
        calls := calls + [CloseBrowser];
        if o.close.Failed? {
          status := o.close;
        } else {
          browser := Absent;
          objectsPerChat := map[];
          referencesInChats := map[];
        }
      }
    }

    /**
     * `clearObjects`: clear the chat, report the count, and close the browser when no
     * record is left. The status is what the call throws: a failed close.
     */
    method ClearObjects(chat: ChatKey, o: Outcomes) returns (status: Status)
      modifies this
      ensures var e := ClearRun(old(State()), old(browser), chat, o);
        State() == e.store && browser == e.browser && calls == old(calls) + e.calls && status == e.status
      ensures Inv(old(State())) ==> Inv(State())
    {
      ghost var s := State();
      ghost var b := browser;
      var count := ClearSeen(chat);
      var reported := [SendMessage(chat, ClearedText(count))];
      calls := calls + reported;
      status := CloseIfEmpty(o);
      Associative(old(calls), reported, Teardown(ClearChat(s, chat), b, o).calls);
      if Inv(s) {
        ClearRunKeepsInv(s, b, chat, o);
      }
    }

    /** The filter in `fetchAndPublishObjects`: ask `hasObject` for each listed link in turn. */
    method NewLinksOf(chat: ChatKey, links: seq<ObjectLink>) returns (unseen: seq<ObjectLink>)
      modifies this
      ensures unseen == NewLinks(old(State()), chat, links)
      ensures State() == Filtered(old(State()), chat, links)
      ensures browser == old(browser) && calls == old(calls)
    {
      ghost var s := State();
      unseen := [];
      for i := 0 to |links|
        invariant unseen == NewLinks(s, chat, links[..i])
        invariant State() == if i == 0 then s else TouchChat(s, chat)
        invariant browser == old(browser) && calls == old(calls)
      {
        var seen := HasObject(chat, links[i].link);
        assert seen == Has(s, chat, links[i].link);
        assert State() == TouchChat(s, chat);
        NewLinksSnoc(s, chat, links, i);
        if !seen {
          unseen := unseen + [links[i]];
        }
      }
      assert links[..|links|] == links;
    }

    /** `sendPreview`: one summary message, whose outcome is the run's to handle. */
    method SendPreview(chat: ChatKey, unseen: seq<ObjectLink>, o: Outcomes) returns (status: Status)
      modifies this
      ensures calls == old(calls) + [SendMessage(chat, PreviewText(|unseen|))]
      ensures status == o.preview
      ensures State() == old(State()) && browser == old(browser)
    {
      calls := calls + [SendMessage(chat, PreviewText(|unseen|))];
      status := o.preview;
    }

    /**
     * One pass of the loop in `fetchAndPublishObjects`, for the link at position i: skip a
     * seen link; otherwise take the cached record or fetch it, put it and send its photo,
     * and send the bare link when the fetch or the send throws.
     */
    method PublishOne(chat: ChatKey, links: seq<ObjectLink>, i: nat, o: Outcomes)
      requires i < |links|
      modifies this
      ensures State() == Step(old(State()), chat, links, i, o).store
      ensures calls == old(calls) + Step(old(State()), chat, links, i, o).calls
      ensures browser == old(browser)
    {
      var link := links[i];
      var seen := HasObject(chat, link.link);
      if !seen {
        PublishUnseen(chat, link, o.fetch(i), o.photo(i));
      }
    }

    /** The body of the loop for a link the chat has not seen. */
    method PublishUnseen(chat: ChatKey, link: ObjectLink, fetched: Result<Apartment>, sent: Status)
      modifies this
      ensures State() == Admit(old(State()), chat, link, fetched, sent).store
      ensures calls == old(calls) + Admit(old(State()), chat, link, fetched, sent).calls
      ensures browser == old(browser)
    {
      var cached := GetObject(link.link);
      var apartment: Apartment;
      var found := true;
      if cached.Some? {
        apartment := cached.value;
      } else {
        calls := calls + [FetchObject(link)];
        match fetched {
          case Ok(a) => apartment := a;
          case Err(_) =>
            apartment := Apartment("", [], "", []);
            found := false;
        }
      }
      if found {
        PutObject(chat, link.link, apartment);
        calls := calls + [SendPhoto(chat, apartment.screenshot, Caption(apartment))];
        if sent.Failed? {
          calls := calls + [SendMessage(chat, link.link)];
        }
      } else {
        calls := calls + [SendMessage(chat, link.link)];
      }
    }

    /** The loop in `fetchAndPublishObjects` over every listed link, in listing order. */
    method PublishLoop(chat: ChatKey, links: seq<ObjectLink>, o: Outcomes)
      modifies this
      ensures State() == Walk(old(State()), chat, links, |links|, o).store
      ensures calls == old(calls) + Walk(old(State()), chat, links, |links|, o).calls
      ensures browser == old(browser)
    {
      ghost var t := State();
      ghost var w := Walk(t, chat, links, 0, o);
      for i := 0 to |links|
        invariant w == Walk(t, chat, links, i, o)
        invariant State() == w.store && calls == old(calls) + w.calls
        invariant browser == old(browser)
      {
        ghost var st := Step(w.store, chat, links, i, o);
        WalkUnfold(t, chat, links, i + 1, o);
        PublishOne(chat, links, i, o);
        Associative(old(calls), w.calls, st.calls);
        w := Progress(st.store, w.calls + st.calls);
      }
    }

    /** The rest of `fetchAndPublishObjects` once the listing is in: filter, summary, loop. */
    method PublishListed(chat: ChatKey, links: seq<ObjectLink>, o: Outcomes) returns (status: Status)
      requires browser == Live
      modifies this
      ensures var e := PublishListing(old(State()), chat, links, o);
        State() == e.store && calls == old(calls) + e.calls && status == e.status
      ensures browser == Live
    {
      ghost var s := State();
      var unseen := NewLinksOf(chat, links);
      status := SendPreview(chat, unseen, o);
      if status.Failed? {
        return;
      }
      PublishLoop(chat, links, o);
      Associative(old(calls), [Summary(s, chat, links)], Walk(Filtered(s, chat, links), chat, links, |links|, o).calls);
    }

    /**
     * `fetchAndPublishObjects`: launch the browser if needed, list the category, send the
     * summary, then notify each listing the chat has not seen. The status is what the
     * call throws.
     */
    method FetchAndPublishObjects(chat: ChatKey, category: Category, o: Outcomes) returns (status: Status)
      modifies this
      ensures var e := PublishRun(old(State()), old(browser), chat, category, o);
        State() == e.store && browser == e.browser && calls == old(calls) + e.calls && status == e.status
      ensures Inv(old(State())) ==> Inv(State())
    {
      ghost var s := State();
      ghost var b := browser;
      if Inv(s) {
        PublishRunKeepsInv(s, b, chat, category, o);
      }
      if browser == Absent {
        calls := calls + [LaunchBrowser];
        if o.launch.Failed? {
          return o.launch;
        }
        browser := Live;
      }
      calls := calls + [FetchObjectLinks(category)];
      if b == Absent {
        Associative(old(calls), [LaunchBrowser], [FetchObjectLinks(category)]);
      }
      assert calls == old(calls) + Listed(b, category);
      if o.listing.Err? {
        return Failed(o.listing.message);
      }
      status := PublishListed(chat, o.listing.value, o);
      Associative(old(calls), Listed(b, category), PublishListing(s, chat, o.listing.value, o).calls);
    }

    /** `execute`: run the command for an allowed sender and report what it throws; refuse anyone else. */
    method Execute(msg: Message, cmd: Command, o: Outcomes)
      modifies this
      ensures var e := ExecuteRun(old(State()), old(browser), parents, msg, cmd, o);
        State() == e.store && browser == e.browser && calls == old(calls) + e.calls
      ensures Inv(old(State())) ==> Inv(State())
    {
      if IsFromParent(parents, msg.from) {
        var status := RunCommand(msg.chat, cmd, o);
        if status.Failed? {
          ghost var e := CommandRun(old(State()), old(browser), msg.chat, cmd, o);
          calls := calls + [SendMessage(msg.chat, status.message)];
          Associative(old(calls), e.calls, [SendMessage(msg.chat, status.message)]);
        }
      } else {
        calls := calls + [SendMessage(msg.chat, Refusal)];
      }
    }

    /** The command `execute` dispatches to; the status is what it throws. */
    method RunCommand(chat: ChatKey, cmd: Command, o: Outcomes) returns (status: Status)
      modifies this
      ensures var e := CommandRun(old(State()), old(browser), chat, cmd, o);
        State() == e.store && browser == e.browser && calls == old(calls) + e.calls && status == e.status
      ensures Inv(old(State())) ==> Inv(State())
    {
      match cmd {
        case Publish(category) =>
          status := FetchAndPublishObjects(chat, category, o);
        case ClearAll =>
          status := ClearObjects(chat, o);
      }
    }

    /** The poll job: publish apartments to the operator chat unless today is a public holiday. */
    method PollTrigger(h: Option<Holiday>, o: Outcomes)
      modifies this
      ensures var e := PollRun(old(State()), old(browser), operator, h, o);
        State() == e.store && browser == e.browser && calls == old(calls) + e.calls
      ensures Inv(old(State())) ==> Inv(State())
    {
      var name := IsSwedishHoliday(h);
      if !Truthy(name) {
        var _ := FetchAndPublishObjects(operator, Lagenhet, o);
      }
    }

    /** The reset job: clear the operator chat unless today is a public holiday. */
    method ResetTrigger(h: Option<Holiday>, o: Outcomes)
      modifies this
      ensures var e := ResetRun(old(State()), old(browser), operator, h, o);
        State() == e.store && browser == e.browser && calls == old(calls) + e.calls
      ensures Inv(old(State())) ==> Inv(State())
    {
      var name := IsSwedishHoliday(h);
      if !Truthy(name) {
        var _ := ClearObjects(operator, o);
      }
    }

    /** The notice job: on a public holiday, tell the operator chat that polling is off. */
    method HolidayNoticeTrigger(h: Option<Holiday>)
      modifies this
      ensures calls == old(calls) + HolidayNoticeRun(operator, h)
      ensures State() == old(State()) && browser == old(browser)
    {
      var name := IsSwedishHoliday(h);
      if Truthy(name) {
        calls := calls + [SendMessage(operator, HolidayText(name.value))];
      }
    }
  }
}
