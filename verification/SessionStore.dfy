/** The session store: a message log and a cache of requirement models. */
module SessionStore {
  import opened Basics

  datatype Kind = Chat | Document

  datatype Message = Message(id: nat, kind: Kind)

  datatype Language = Zh | En | De | Ms

  /** One cache entry for each language, and the canonical one. */
  datatype Key = Canonical | Localized(language: Language)

  /** Where a part of a model comes from: a language model that read a chat, or the
      example of a business template. */
  datatype Source = FromChat(chat: seq<Message>, language: Language, call: nat) | Seed

  /** The collection status with its progress counts. */
  datatype Status = Status(source: Source, collected: nat, confirmed: nat, conflict: nat)

  datatype Model = Model(body: Source, status: Status)

  datatype Entry = Entry(count: nat, model: Model)

  type Cache = map<Key, Entry>

  /** The messages that count: generated documents are no chat. */
  function ChatOf(messages: seq<Message>): seq<Message> {
    if messages == [] then []
    else
      var last := messages[|messages| - 1];
      ChatOf(messages[..|messages| - 1]) + if last.kind == Chat then [last] else []
  }

  function Find(cache: Cache, key: Key): Option<Entry> {
    if key in cache then Some(cache[key]) else None
  }

  /** The saved cache: a newer entry is not overwritten. */
  function Save(cache: Cache, key: Key, count: nat, model: Model): Cache {
    if key in cache && cache[key].count > count then cache else cache[key := Entry(count, model)]
  }

  class SQLiteSessionStore {
    var messages: seq<Message>
    var structuredRequirementCache: Cache

    constructor ()
      ensures messages == [] && structuredRequirementCache == map[]
    {
      messages, structuredRequirementCache := [], map[];
    }

    method AppendMessage(message: Message)
      modifies `messages
      ensures messages == old(messages) + [message]
      ensures ChatOf(messages) == ChatOf(old(messages)) + if message.kind == Chat then [message] else []
    {
      ghost var before := messages;
      messages := messages + [message];
      assert messages[..|before|] == before;
    }

    method GetStructuredRequirementCacheEntry(language: Key) returns (entry: Option<Entry>)
      ensures entry == Find(structuredRequirementCache, language)
    {
      entry := if language in structuredRequirementCache then Some(structuredRequirementCache[language]) else None;
    }

    /** The stamp of the entry never decreases, and no other entry changes. */
    method SaveStructuredRequirementCacheEntry(language: Key, messageCount: nat, model: Model)
      modifies `structuredRequirementCache
      ensures structuredRequirementCache == Save(old(structuredRequirementCache), language, messageCount, model)
      ensures language in structuredRequirementCache && structuredRequirementCache[language].count >= messageCount
      ensures forall key :: key in old(structuredRequirementCache) ==>
                key in structuredRequirementCache
                && old(structuredRequirementCache[key].count) <= structuredRequirementCache[key].count
    {
      var currentEntry := GetStructuredRequirementCacheEntry(language);
      var currentMessageCount := -1;
      if currentEntry.Some? {
        currentMessageCount := currentEntry.value.count;
      }
      if currentMessageCount > messageCount {
        return;
      }
      structuredRequirementCache := structuredRequirementCache[language := Entry(messageCount, model)];
    }
  }
}
