/** A collected message that passed the filter: `filter.Message` of internal/summary/filter/filter.go. */
module Messages {

  /**
   `id` is the row id of the collected message, 0 when it was never stored. `urls`,
   `hash` and `tokens` are what `URLs`, SHA-256 and `tokenSet` make of the content.
   */
  datatype Message = Message(
    id: int, chatId: int, date: int, content: string, urls: seq<string>, hash: string, tokens: set<string>)

  predicate DateBefore(a: Message, b: Message) {
    a.date < b.date
  }
}
