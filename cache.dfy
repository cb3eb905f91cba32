/**
 * The three maps of the multi-chat deduplication cache, as values, and the operations on
 * them. `Bot.NotifierBot` keeps these maps as fields and is proved to update them as
 * these functions say.
 */
module Cache {
  import opened Types

  /** objects_per_chat, references_in_chats and objects. */
  datatype Store = Store(
    objectsPerChat: map<ChatKey, set<Link>>,
    referencesInChats: map<Link, set<ChatKey>>,
    objects: map<Link, Apartment>)

  const Empty := Store(map[], map[], map[])

  /** The links a chat has seen; a chat without an entry has seen none. */
  function ObjectLinks(s: Store, chat: ChatKey): set<Link> {
    if chat in s.objectsPerChat then s.objectsPerChat[chat] else {}
  }

  /** The chats holding a link; a link without an entry is held by none. */
  function References(s: Store, link: Link): set<ChatKey> {
    if link in s.referencesInChats then s.referencesInChats[link] else {}
  }

  /** What `hasObject` answers. */
  predicate Has(s: Store, chat: ChatKey, link: Link) {
    link in ObjectLinks(s, chat)
  }

  /** What `getObject` answers: the record, whichever chat asks. */
  function Get(s: Store, link: Link): Option<Apartment> {
    if link in s.objects then Some(s.objects[link]) else None
  }

  /** Two stores no query can tell apart: same seen sets, holders and records. */
  ghost predicate SameView(s: Store, t: Store) {
    && (forall c :: ObjectLinks(s, c) == ObjectLinks(t, c))
    && (forall l :: References(s, l) == References(t, l))
    && s.objects == t.objects
  }

  /**
   * The cache invariant: a record is cached exactly when some chat holds its link, and a
   * chat holds a link exactly when the link is in that chat's seen set.
   */
  ghost predicate Inv(s: Store) {
    && (forall l :: l in s.objects <==> References(s, l) != {})
    && (forall c, l :: c in References(s, l) <==> l in ObjectLinks(s, c))
  }

  /** The lazy creation in `getObjectLinks`: an empty seen set for an unknown chat. */
  function TouchChat(s: Store, chat: ChatKey): (r: Store)
    ensures r.objectsPerChat.Keys == s.objectsPerChat.Keys + {chat}
    ensures SameView(s, r)
  {
    if chat in s.objectsPerChat then s else s.(objectsPerChat := s.objectsPerChat[chat := {}])
  }

  lemma TouchChatPreservesInv(s: Store, chat: ChatKey)
    requires Inv(s)
    ensures Inv(TouchChat(s, chat))
  {
  }

  /** `putObject`: the chat sees the link, holds it, and the record is stored, overwriting. */
  function Put(s: Store, chat: ChatKey, link: Link, a: Apartment): (r: Store)
    ensures Has(r, chat, link) && chat in References(r, link) && Get(r, link) == Some(a)
    ensures ObjectLinks(r, chat) == ObjectLinks(s, chat) + {link}
    ensures References(r, link) == References(s, link) + {chat}
  {
    Store(
      s.objectsPerChat[chat := ObjectLinks(s, chat) + {link}],
      s.referencesInChats[link := References(s, link) + {chat}],
      s.objects[link := a])
  }

  /** A put touches no other chat's seen set and no other link's holders or record. */
  lemma PutFrame(s: Store, chat: ChatKey, link: Link, a: Apartment)
    ensures var r := Put(s, chat, link, a);
      && (forall c :: c != chat ==> ObjectLinks(r, c) == ObjectLinks(s, c))
      && (forall l :: l != link ==> References(r, l) == References(s, l) && Get(r, l) == Get(s, l))
  {
  }

  /** Putting the same record twice for the same chat changes nothing the second time. */
  lemma PutIdempotent(s: Store, chat: ChatKey, link: Link, a: Apartment)
    ensures Put(Put(s, chat, link, a), chat, link, a) == Put(s, chat, link, a)
  {
  }

  lemma PutPreservesInv(s: Store, chat: ChatKey, link: Link, a: Apartment)
    requires Inv(s)
    ensures Inv(Put(s, chat, link, a))
  {
    PutFrame(s, chat, link, a);
  }

  /**
   * Tenant isolation: a put for one chat makes the link seen by no other chat, yet the
   * record is visible to every chat.
   */
  lemma PutIsolation(s: Store, chat: ChatKey, other: ChatKey, link: Link, a: Apartment)
    requires other != chat
    ensures Has(Put(s, chat, link, a), other, link) == Has(s, other, link)
    ensures ObjectLinks(Put(s, chat, link, a), other) == ObjectLinks(s, other)
    ensures Get(Put(s, chat, link, a), link) == Some(a)
  {
  }

  /** `clearObject`: the chat forgets the link and stops holding it; an unheld record is evicted. */
  function ClearOne(s: Store, chat: ChatKey, link: Link): (r: Store)
    ensures !Has(r, chat, link) && chat !in References(r, link)
    ensures ObjectLinks(r, chat) == ObjectLinks(s, chat) - {link}
    ensures References(r, link) == References(s, link) - {chat}
    ensures link in r.objects <==> link in s.objects && References(r, link) != {}
    ensures link in r.objects ==> r.objects[link] == s.objects[link]
  {
    var holders := References(s, link) - {chat};
    Store(
      s.objectsPerChat[chat := ObjectLinks(s, chat) - {link}],
      s.referencesInChats[link := holders],
      if holders == {} then s.objects - {link} else s.objects)
  }

  /** A clear touches no other chat's seen set and no other link's holders or record. */
  lemma ClearOneFrame(s: Store, chat: ChatKey, link: Link)
    ensures var r := ClearOne(s, chat, link);
      && (forall c :: c != chat ==> ObjectLinks(r, c) == ObjectLinks(s, c))
      && (forall l :: l != link ==> References(r, l) == References(s, l) && Get(r, l) == Get(s, l))
  {
  }

  lemma ClearOnePreservesInv(s: Store, chat: ChatKey, link: Link)
    requires Inv(s)
    ensures Inv(ClearOne(s, chat, link))
  {
    var r := ClearOne(s, chat, link);
    ClearOneFrame(s, chat, link);
    forall l ensures l in r.objects <==> References(r, l) != {} {
      if l == link && References(r, l) != {} {
        assert References(s, l) != {};
      }
    }
  }

  /**
   * Under the invariant, clearing evicts the record exactly when no other chat has seen
   * the link, so it never evicts a record another chat holds.
   */
  lemma ClearOneEvictsIffUnshared(s: Store, chat: ChatKey, link: Link)
    requires Inv(s) && link in s.objects
    ensures link !in ClearOne(s, chat, link).objects <==> forall c :: c != chat ==> !Has(s, c, link)
  {
    var r := ClearOne(s, chat, link);
    if link in r.objects {
      var c :| c in References(r, link);
      assert c != chat && Has(s, c, link);
    } else {
      forall c | c != chat ensures !Has(s, c, link) {
        assert c !in References(r, link);
      }
    }
  }

  /** Clearing in one chat leaves a link another chat has seen both seen there and cached. */
  lemma ClearOneKeepsShared(s: Store, chat: ChatKey, other: ChatKey, link: Link)
    requires Inv(s) && other != chat && Has(s, other, link)
    ensures Has(ClearOne(s, chat, link), other, link)
    ensures Get(ClearOne(s, chat, link), link) == Get(s, link) && link in s.objects
  {
    assert other in References(ClearOne(s, chat, link), link);
  }

  /** The state after clearing every link of `done` for `chat`, in any order. */
  function ClearLinks(s: Store, chat: ChatKey, done: set<Link>): Store {
    Store(
      s.objectsPerChat[chat := ObjectLinks(s, chat) - done],
      map l | l in s.referencesInChats.Keys + done ::
        if l in done then References(s, l) - {chat} else s.referencesInChats[l],
      map l | l in s.objects && !(l in done && References(s, l) - {chat} == {}) :: s.objects[l])
  }

  lemma ClearLinksNone(s: Store, chat: ChatKey)
    requires chat in s.objectsPerChat
    ensures ClearLinks(s, chat, {}) == s
  {
    var r := ClearLinks(s, chat, {});
    assert ObjectLinks(s, chat) - {} == s.objectsPerChat[chat];
    assert r.objectsPerChat == s.objectsPerChat;
    assert r.referencesInChats == s.referencesInChats;
    assert r.objects == s.objects;
  }

  /** Clearing one more link extends the set of cleared links. */
  lemma ClearLinksStep(s: Store, chat: ChatKey, done: set<Link>, link: Link)
    requires link !in done
    ensures ClearOne(ClearLinks(s, chat, done), chat, link) == ClearLinks(s, chat, done + {link})
  {
    var t := ClearLinks(s, chat, done);
    var u := ClearLinks(s, chat, done + {link});
    var r := ClearOne(t, chat, link);
    assert (ObjectLinks(s, chat) - done) - {link} == ObjectLinks(s, chat) - (done + {link});
    assert r.objectsPerChat == u.objectsPerChat;
    ClearLinksStepReferences(s, chat, done, link);
    ClearLinksStepObjects(s, chat, done, link);
  }

  lemma ClearLinksStepReferences(s: Store, chat: ChatKey, done: set<Link>, link: Link)
    requires link !in done
    ensures ClearOne(ClearLinks(s, chat, done), chat, link).referencesInChats
         == ClearLinks(s, chat, done + {link}).referencesInChats
  {
    var t := ClearLinks(s, chat, done);
    assert References(t, link) == References(s, link);
  }

  lemma ClearLinksStepObjects(s: Store, chat: ChatKey, done: set<Link>, link: Link)
    requires link !in done
    ensures ClearOne(ClearLinks(s, chat, done), chat, link).objects
         == ClearLinks(s, chat, done + {link}).objects
  {
    var t := ClearLinks(s, chat, done);
    assert References(t, link) == References(s, link);
  }

  /**
   * The maps after `clearObjects` has cleared a chat's links one by one and emptied its
   * seen set (before any browser teardown).
   */
  function ClearChat(s: Store, chat: ChatKey): (r: Store)
    ensures ObjectLinks(r, chat) == {} && chat in r.objectsPerChat
  {
    var t := TouchChat(s, chat);
    var d := ClearLinks(t, chat, ObjectLinks(t, chat));
    d.(objectsPerChat := d.objectsPerChat[chat := {}])
  }

  /**
   * Clearing a chat changes no other chat's seen set, drops the chat from the holders of
   * each link it had seen, evicts exactly the records it alone held and keeps the rest.
   */
  lemma ClearChatSpec(s: Store, chat: ChatKey)
    ensures var r := ClearChat(s, chat);
      && (forall c :: c != chat ==> ObjectLinks(r, c) == ObjectLinks(s, c))
      && (forall l :: References(r, l) == if Has(s, chat, l) then References(s, l) - {chat} else References(s, l))
      && (forall l :: l in r.objects <==> l in s.objects && !(Has(s, chat, l) && References(s, l) <= {chat}))
      && (forall l :: l in r.objects ==> r.objects[l] == s.objects[l])
  {
  }

  lemma ClearChatPreservesInv(s: Store, chat: ChatKey)
    requires Inv(s)
    ensures Inv(ClearChat(s, chat))
  {
    var r := ClearChat(s, chat);
    ClearChatSpec(s, chat);
    forall l ensures l in r.objects <==> References(r, l) != {} {
      if References(r, l) != {} {
        var c :| c in References(r, l);
        assert c in References(s, l);
      }
      if l in r.objects && Has(s, chat, l) {
        var c :| c in References(s, l) && c != chat;
        assert c in References(r, l);
      }
    }
  }

  /**
   * Clearing releases only the chat's own references: a record another chat has seen
   * stays cached, and it is evicted once the last holder clears.
   */
  lemma ClearReleasesOnlyOwned(s: Store, a: ChatKey, b: ChatKey, link: Link)
    requires Inv(s) && a != b && References(s, link) == {a, b}
    ensures var r := ClearChat(s, a); link in r.objects && Has(r, b, link) && !Has(r, a, link)
    ensures link !in ClearChat(ClearChat(s, a), b).objects
  {
    assert Has(s, a, link) && Has(s, b, link);
    var r := ClearChat(s, a);
    ClearChatSpec(s, a);
    ClearChatSpec(r, b);
    assert References(r, link) == {b};
  }

  /** No chat other than `chat` has seen any link. */
  ghost predicate NoOtherHolder(s: Store, chat: ChatKey) {
    forall c, l :: c != chat ==> !Has(s, c, l)
  }

  /** The teardown in `clearObjects`: both index maps emptied, the (empty) records kept. */
  function Reset(s: Store): (r: Store)
    ensures r.objectsPerChat == map[] && r.referencesInChats == map[] && r.objects == s.objects
  {
    Store(map[], map[], s.objects)
  }

  /** Under the invariant, resetting an empty cache changes no chat's seen links. */
  lemma ResetKeepsView(s: Store)
    requires Inv(s) && s.objects == map[]
    ensures SameView(s, Reset(s)) && Inv(Reset(s))
  {
    forall c ensures ObjectLinks(s, c) == {} {
      assert forall l :: l in ObjectLinks(s, c) ==> c in References(s, l);
    }
  }
}
