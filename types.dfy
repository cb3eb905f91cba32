/** Entities shared by every part of the notifier model. */
module Types {

  /** A chat, identified by the string form of its Telegram chat id (`String(chatId)`). */
  type ChatKey = string

  /** A listing's canonical link, the cache key and the unit of deduplication. */
  type Link = string

  /** One labelled fact of a listing. */
  datatype Fact = Fact(key: string, value: string)

  /** The detail record of one listing, immutable once fetched. */
  datatype Apartment = Apartment(name: string, facts: seq<Fact>, link: Link, screenshot: seq<bv8>)

  /** A listing as returned by the catalog listing: only its link is used. */
  datatype ObjectLink = ObjectLink(link: Link)

  /** The catalog categories the commands and the schedule ask for. */
  datatype Category = Lagenhet | Forrad | Parkering

  /** The Telegram user who sent a message. */
  datatype User = User(id: int)

  /** An inbound Telegram message: its chat and, when known, its sender. */
  datatype Message = Message(chat: ChatKey, from: Option<User>)

  datatype Option<T> = None | Some(value: T)

  /** The outcome of an external call that produces a value or throws. */
  datatype Result<T> = Ok(value: T) | Err(message: string)

  /** The outcome of an external call that produces nothing or throws. */
  datatype Status = Done | Failed(message: string)

  /** The lazily launched browser session: undefined or live. */
  datatype BrowserState = Absent | Live

  /** One attempted call into the messaging transport or the browser automation. */
  datatype Call =
    | LaunchBrowser
    | FetchObjectLinks(category: Category)
    | FetchObject(target: ObjectLink)
    | CloseBrowser
    | SendMessage(chat: ChatKey, text: string)
    | SendPhoto(chat: ChatKey, photo: seq<bv8>, caption: string)

  /** Re-bracketing a trace of calls. */
  lemma Associative(a: seq<Call>, b: seq<Call>, c: seq<Call>)
    ensures (a + b) + c == a + (b + c)
  {
  }
}
