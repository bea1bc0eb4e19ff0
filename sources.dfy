/** The host's external source references: a tagged record naming the deck
    provider (`source`) and, for providers that have one, a deck code. */
module Sources {
  import opened Wrappers

  /** A `Source.External`; `deckCode` is `None` for a provider kind whose
      references carry no deck code (reading it in JavaScript gives `undefined`). */
  datatype External = External(source: string, deckCode: Option<string>)
}
