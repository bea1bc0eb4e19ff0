/** The CrCast deck source: resolves a deck code against the CrCast deck
    service into a deck summary and the deck's call and response cards. */
module CrCast {
  import opened Wrappers
  import opened Sources
  import opened Cards
  import opened CallShape
  import opened Upstream
  import opened Pool

  /** The tag CrCast source references carry. */
  const Kind := "CrCast"

  /** HTTP 404 Not Found. */
  const NotFoundStatus := 404

  /** A reference to one CrCast deck. */
  datatype CrCastSource = CrCastSource(deckCode: string) {
    function AsExternal(): External {
      External(Kind, Some(deckCode))
    }
  }

  /** The adapter's settings; only the base URL of the deck pages is read. */
  datatype Config = Config(baseUrl: string)

  /** A deck's display details; `url` is absent while loading. */
  datatype Details = Details(name: string, url: Option<string>)

  datatype Summary = Summary(details: Details, calls: nat, responses: nat)

  /** The decoded deck metadata (the adapter reads only its name). */
  datatype DeckInfo = DeckInfo(name: string)

  /** An upstream card: call fragments, or a response's text. */
  datatype RawCard = RawCard(text: seq<string>)

  /** The decoded cards document. */
  datatype CardsDoc = CardsDoc(calls: seq<RawCard>, responses: seq<RawCard>)

  /** What the service answers to the deck request and to the cards request. */
  datatype Replies = Replies(info: Fetch<DeckInfo>, cards: Fetch<CardsDoc>)

  /** What a failed resolution throws. */
  datatype Thrown =
    | SourceNotFound(source: CrCastSource)
    | SourceServiceError(source: CrCastSource)
    | Rethrown(failure: Failure)

  datatype Resolved = Resolved(summary: Summary, templates: Templates)

  /** A structured body is used as it is; a text body is what the lenient
      parser makes of it, and a parse error is an ordinary thrown error. */
  function Decode<T>(body: Body<T>): (r: Result<T, Failure>)
    ensures body.Structured? ==> r == Ok(body.doc)
    ensures body.Serialized? ==> (r.Ok? <==> body.parsed.Ok?)
    ensures body.Serialized? && r.Ok? ==> r.value == body.parsed.value
    ensures r.Err? ==> r.error == OtherFailure(body.parsed.error)
  {
    match body
    case Structured(doc) => Ok(doc)
    case Serialized(text, parsed) =>
      match parsed
      case Ok(doc) => Ok(doc)
      case Err(message) => Err(OtherFailure(message))
  }

  /** Decoding never fails with an HTTP-shaped error. */
  lemma DecodeFailureIsPlain<T>(body: Body<T>)
    ensures Decode(body).Err? ==> Decode(body).error.OtherFailure?
    ensures body.Structured? ==> Decode(body) == Ok(body.doc)
  {
  }

  /** The request answered with HTTP 404. */
  predicate FetchNotFound<T>(fetch: Fetch<T>) {
    fetch.Threw? && fetch.failure.HttpFailure? && fetch.failure.response.Some?
    && fetch.failure.response.value.status == NotFoundStatus
  }

  /** The request threw an HTTP error other than 404, or one whose response
      is undefined. */
  predicate FetchServiceError<T>(fetch: Fetch<T>) {
    fetch.Threw? && fetch.failure.HttpFailure? && !FetchNotFound(fetch)
  }

  class Resolver {
    const source: CrCastSource
    const config: Config
    const pool: ConnectionPool

    constructor (source: CrCastSource, config: Config, pool: ConnectionPool)
      ensures this.source == source && this.config == config && this.pool == pool
    {
      this.source := source;
      this.config := config;
      this.pool := pool;
    }

    /** The kind of reference this resolver accepts. */
    function Id(): (k: string)
      ensures k == source.AsExternal().source
    {
      Kind
    }

    /** The deck code is the key `Equals` compares. */
    function DeckId(): (d: string)
      ensures Equals(External(Id(), Some(d)))
    {
      source.deckCode
    }

    function LoadingDetails(): (d: Details)
      ensures d.url == None
      ensures |d.name| == |Kind| + 1 + |DeckId()|
      ensures d.name[..|Kind| + 1] == Id() + " " && d.name[|Kind| + 1..] == DeckId()
    {
      Details(Kind + " " + source.deckCode, None)
    }

    function Equals(other: External): (b: bool)
      ensures b <==> other == source.AsExternal()
    {
      other.source == Kind && Some(source.deckCode) == other.deckCode
    }

    function InfoPath(): string {
      "cc/decks/" + source.deckCode
    }

    function CardsPath(): string {
      "cc/decks/" + source.deckCode + "/cards"
    }

    /** The status-to-error mapping of the `catch` block. */
    function Classify(e: Failure): (t: Thrown)
      ensures t == SourceNotFound(source) <==>
        e.HttpFailure? && e.response.Some? && e.response.value.status == NotFoundStatus
      ensures t == SourceServiceError(source) <==>
        e.HttpFailure? && !(e.response.Some? && e.response.value.status == NotFoundStatus)
      ensures t.Rethrown? <==> e.OtherFailure?
      ensures t.Rethrown? ==> t.failure == e
    {
      match e
      case HttpFailure(response) =>
        if response.Some? && response.value.status == NotFoundStatus
        then SourceNotFound(source) else SourceServiceError(source)
      case OtherFailure(_) => Rethrown(e)
    }

    /** The source's `response`: the response card for an upstream response,
        its first text element verbatim (not trimmed); `None` when it has no
        text. */
    function ResponseCard(raw: RawCard, id: CardId): (r: Cards.Response)
      ensures r.id == id && r.source == source.AsExternal()
      ensures raw.text != [] ==> r.text == Some(raw.text[0])
      ensures raw.text == [] ==> r.text == None
    {
      Cards.Response(id, if raw.text == [] then None else Some(raw.text[0]), source.AsExternal())
    }

    /** The source's `call`: the call card for an upstream call, one line,
        the fragments trimmed with a space and a slot between consecutive
        ones. */
    method CallCard(raw: RawCard, id: CardId) returns (c: Cards.Call)
      ensures c == Cards.Call(id, [CallParts(raw.text)], source.AsExternal())
    {
      var part: seq<Part> := [];
      for i := 0 to |raw.text|
        invariant |part| == 3 * i
        invariant forall j :: 0 <= j < 3 * i ==> part[j] == PartAt(TrimAll(raw.text), j)
      {
        part := part + [Text(Trimming.Trim(raw.text[i]))];
        part := part + [Text(" "), Slot];
        DivMod3(i, 0);
        DivMod3(i, 1);
        DivMod3(i, 2);
      }
      part := Pop(part);
      part := Pop(part);
      assert part == Interleave(TrimAll(raw.text));
      c := Cards.Call(id, [part], source.AsExternal());
    }

    /** The call cards for `raws`, with consecutive ids from `first`. */
    function CallsOf(raws: seq<RawCard>, first: CardId): (calls: seq<Cards.Call>)
      ensures |calls| == |raws|
      ensures forall k :: 0 <= k < |raws| ==> calls[k].id == first + k
    {
      seq(|raws|, k requires 0 <= k < |raws| => Cards.Call(first + k, [CallParts(raws[k].text)], source.AsExternal()))
    }

    /** The response cards for `raws`, with consecutive ids from `first`. */
    function ResponsesOf(raws: seq<RawCard>, first: CardId): (responses: seq<Cards.Response>)
      ensures |responses| == |raws|
      ensures forall k :: 0 <= k < |raws| ==> responses[k].id == first + k
    {
      seq(|raws|, k requires 0 <= k < |raws| => ResponseCard(raws[k], first + k))
    }

    /** `cards.calls.map(this.call)`: one call card per upstream call, each
        with a fresh id. */
    method CallTemplates(raws: seq<RawCard>, ids: CardIds) returns (calls: seq<Cards.Call>)
      modifies ids
      ensures calls == CallsOf(raws, old(ids.next))
      ensures ids.next == old(ids.next) + |raws|
    {
      calls := [];
      for i := 0 to |raws|
        invariant ids.next == old(ids.next) + i
        invariant calls == CallsOf(raws[..i], old(ids.next))
      {
        var id := ids.Fresh();
        var c := CallCard(raws[i], id);
        calls := calls + [c];
      }
      assert raws[..|raws|] == raws;
    }

    /** `cards.responses.map(this.response)`. */
    method ResponseTemplates(raws: seq<RawCard>, ids: CardIds) returns (responses: seq<Cards.Response>)
      modifies ids
      ensures responses == ResponsesOf(raws, old(ids.next))
      ensures ids.next == old(ids.next) + |raws|
    {
      responses := [];
      for i := 0 to |raws|
        invariant ids.next == old(ids.next) + i
        invariant responses == ResponsesOf(raws[..i], old(ids.next))
      {
        var id := ids.Fresh();
        responses := responses + [ResponseCard(raws[i], id)];
      }
      assert raws[..|raws|] == raws;
    }

    function SummaryOf(info: DeckInfo, cards: CardsDoc): (s: Summary)
      ensures s.details.name == info.name && s.details.url == Some(config.baseUrl + "decks/" + DeckId())
      ensures s.details != LoadingDetails()
      ensures s.calls == |cards.calls| && s.responses == |cards.responses|
    {
      Summary(Details(info.name, Some(config.baseUrl + "decks/" + source.deckCode)),
              |cards.calls|, |cards.responses|)
    }

    /** The templates, call ids first and then response ids, from `first` on. */
    function TemplatesOf(cards: CardsDoc, first: CardId): (t: Templates)
      ensures |t.calls| == |cards.calls| && |t.responses| == |cards.responses|
    {
      CallsDistinct(cards.calls, first);
      ResponsesDistinct(cards.responses, first + |cards.calls|);
      DistinctSetSize(CallsOf(cards.calls, first));
      DistinctSetSize(ResponsesOf(cards.responses, first + |cards.calls|));
      Templates(AsSet(CallsOf(cards.calls, first)),
                AsSet(ResponsesOf(cards.responses, first + |cards.calls|)))
    }

    /** What the `try` block yields: the deck request, then the cards request,
        then decoding both bodies, then building the result; the first step
        that fails ends it with that failure. */
    function TryBlock(replies: Replies, first: CardId): (r: Result<Resolved, Failure>)
      ensures r.Ok? <==> && replies.info.Replied? && replies.cards.Replied?
                         && Decode(replies.info.body).Ok? && Decode(replies.cards.body).Ok?
      ensures replies.info.Threw? ==> r == Err(replies.info.failure)
      ensures replies.info.Replied? && replies.cards.Threw? ==> r == Err(replies.cards.failure)
      ensures r.Ok? ==> r.value.summary.calls == |Decode(replies.cards.body).value.calls|
      ensures r.Ok? ==> r.value.summary.responses == |Decode(replies.cards.body).value.responses|
    {
      match replies.info
      case Threw(e) => Err(e)
      case Replied(infoBody) =>
        match replies.cards
        case Threw(e) => Err(e)
        case Replied(cardsBody) =>
          match Decode(infoBody)
          case Err(e) => Err(e)
          case Ok(info) =>
            match Decode(cardsBody)
            case Err(e) => Err(e)
            case Ok(cards) => Ok(Resolved(SummaryOf(info, cards), TemplatesOf(cards, first)))
    }

    /** A resolution: the `try` block's result, or its failure classified. */
    function Resolution(replies: Replies, first: CardId): (r: Result<Resolved, Thrown>)
      ensures r.Ok? <==> TryBlock(replies, first).Ok?
      ensures r.Ok? ==> r.value == TryBlock(replies, first).value
      ensures r.Err? && !r.error.Rethrown? ==> r.error.source == source
      ensures r.Err? && r.error.Rethrown? ==> r.error.failure.OtherFailure?
    {
      match TryBlock(replies, first)
      case Ok(v) => Ok(v)
      case Err(e) => Err(Classify(e))
    }

    /** The requests a resolution sends over connection `c`: the cards are
        asked for only once the deck request has succeeded. */
    function Requests(c: Connection, replies: Replies): seq<(Connection, string)> {
      [(c, InfoPath())] + if replies.info.Replied? then [(c, CardsPath())] else []
    }

    /** The `try` block of `summaryAndTemplates`, over a borrowed connection:
        the deck request, then the cards request, then decoding and building
        the templates; the first step that fails ends it. */
    method FetchAndTransform(connection: Connection, replies: Replies, ids: CardIds)
      returns (outcome: Result<Resolved, Failure>)
      requires pool.Valid() && connection in pool.lent
      modifies pool`requests, ids
      ensures outcome == TryBlock(replies, old(ids.next))
      ensures pool.requests == old(pool.requests) + Requests(connection, replies)
      ensures ids.next == old(ids.next) + if outcome.Ok? then outcome.value.summary.calls + outcome.value.summary.responses else 0
    {
      ghost var first := ids.next;
      var rawInfo := pool.Get(connection, InfoPath(), replies.info);
      if rawInfo.Threw? {
        return Err(rawInfo.failure);
      }
      var rawCards := pool.Get(connection, CardsPath(), replies.cards);
      if rawCards.Threw? {
        return Err(rawCards.failure);
      }
      var info := Decode(rawInfo.body);
      if info.Err? {
        return Err(info.error);
      }
      var cards := Decode(rawCards.body);
      if cards.Err? {
        return Err(cards.error);
      }
      var summary := SummaryOf(info.value, cards.value);
      var calls := CallTemplates(cards.value.calls, ids);
      var responses := ResponseTemplates(cards.value.responses, ids);
      outcome := Ok(Resolved(summary, Templates(AsSet(calls), AsSet(responses))));
    }

    /** `summaryAndTemplates`: borrows a connection, fetches and transforms
        the deck, classifies a failure, and returns the connection exactly once
        whichever way the body ends. */
    method SummaryAndTemplates(replies: Replies, ids: CardIds) returns (r: Result<Resolved, Thrown>)
      requires pool.Valid()
      modifies pool, ids
      ensures pool.Valid()
      ensures r == Resolution(replies, old(ids.next))
      ensures pool.lent == old(pool.lent)
      ensures pool.acquired == old(pool.acquired) + 1 && pool.released == old(pool.released) + 1
      ensures exists c :: && c !in old(pool.lent)
                          && (old(pool.idle) != {} ==> c in old(pool.idle))
                          && (old(pool.idle) == {} ==> c == old(pool.created))
                          && pool.idle == old(pool.idle) + {c}
                          && pool.created == old(pool.created) + (if old(pool.idle) == {} then 1 else 0)
                          && pool.requests == old(pool.requests) + Requests(c, replies)
      ensures old(pool.idle) != {} ==> pool.idle == old(pool.idle) && pool.created == old(pool.created)
      ensures ids.next == old(ids.next) + if r.Ok? then r.value.summary.calls + r.value.summary.responses else 0
    {
      var connection := pool.Acquire();
      var outcome := FetchAndTransform(connection, replies, ids);
      // catch
      if outcome.Err? {
        r := Err(Classify(outcome.error));
      } else {
        r := Ok(outcome.value);
      }
      // finally
      pool.Release(connection);
      assert pool.requests == old(pool.requests) + Requests(connection, replies);
    }

    /** `equals` holds exactly for this deck's own reference. */
    lemma EqualsIffSameDeck(other: External)
      ensures Equals(other) <==> other == source.AsExternal()
    {
    }

    /** A reference of another kind is never equal, even with the same deck code. */
    lemma EqualsRejectsOtherKind(other: External)
      requires other.source != Kind
      ensures !Equals(other)
      ensures Equals(other.(source := Kind)) <==> other.deckCode == Some(DeckId())
    {
    }

    /** A response is the upstream text as it is, where a one-fragment call
        is trimmed: the two agree exactly when the text is already trimmed. */
    lemma ResponseVersusSingleFragmentCall(text: string, id: CardId)
      ensures ResponseCard(RawCard([text]), id).text == Some(text)
      ensures CallParts([text]) == [Text(Trimming.Trim(text))]
      ensures CallParts([text]) == [Text(text)] <==> Trimming.Trim(text) == text
    {
      InterleaveSingle(Trimming.Trim(text));
      assert TrimAll([text]) == [Trimming.Trim(text)];
    }

    /** A failed request ends the resolution with that request's error
        classified; the cards are not requested after the deck request fails. */
    lemma FetchFailureClassified(replies: Replies, first: CardId)
      ensures replies.info.Threw? ==>
        Resolution(replies, first) == Err(Classify(replies.info.failure))
      ensures replies.info.Replied? && replies.cards.Threw? ==>
        Resolution(replies, first) == Err(Classify(replies.cards.failure))
    {
    }

    /** A resolution fails with `SourceNotFound` exactly when the deck request,
        or else the cards request, was answered with 404. */
    lemma NotFoundIff(replies: Replies, first: CardId)
      ensures Resolution(replies, first) == Err(SourceNotFound(source)) <==>
        FetchNotFound(replies.info) || (replies.info.Replied? && FetchNotFound(replies.cards))
    {
      if replies.info.Replied? && replies.cards.Replied? {
        DecodeFailureIsPlain(replies.info.body);
        DecodeFailureIsPlain(replies.cards.body);
      }
    }

    /** A resolution fails with `SourceServiceError` exactly when the first
        request that failed threw an HTTP error that is not a 404, including
        one whose response is undefined. */
    lemma ServiceErrorIff(replies: Replies, first: CardId)
      ensures Resolution(replies, first) == Err(SourceServiceError(source)) <==>
        FetchServiceError(replies.info) || (replies.info.Replied? && FetchServiceError(replies.cards))
    {
      if replies.info.Replied? && replies.cards.Replied? {
        DecodeFailureIsPlain(replies.info.body);
        DecodeFailureIsPlain(replies.cards.body);
      }
    }

    /** Only errors without a `response` property are rethrown, and they are
        rethrown unchanged; a body that does not parse is one of them. */
    lemma RethrownUnchanged(replies: Replies, first: CardId)
      ensures Resolution(replies, first).Err? && Resolution(replies, first).error.Rethrown? ==>
        && Resolution(replies, first).error.failure.OtherFailure?
        && TryBlock(replies, first) == Err(Resolution(replies, first).error.failure)
      ensures replies.info.Replied? && replies.cards.Replied? && Decode(replies.info.body).Err? ==>
        Resolution(replies, first) == Err(Rethrown(Decode(replies.info.body).error))
      ensures && replies.info.Replied? && replies.cards.Replied?
              && Decode(replies.info.body).Ok? && Decode(replies.cards.body).Err? ==>
        Resolution(replies, first) == Err(Rethrown(Decode(replies.cards.body).error))
    {
      if replies.info.Replied? && replies.cards.Replied? {
        DecodeFailureIsPlain(replies.info.body);
        DecodeFailureIsPlain(replies.cards.body);
      }
    }

    lemma CallsDistinct(raws: seq<RawCard>, first: CardId)
      ensures Distinct(CallsOf(raws, first))
    {
      var calls := CallsOf(raws, first);
      forall i, j | 0 <= i < j < |calls|
        ensures calls[i] != calls[j]
      {
        assert calls[i].id == first + i && calls[j].id == first + j;
      }
    }

    lemma ResponsesDistinct(raws: seq<RawCard>, first: CardId)
      ensures Distinct(ResponsesOf(raws, first))
    {
      var responses := ResponsesOf(raws, first);
      forall i, j | 0 <= i < j < |responses|
        ensures responses[i] != responses[j]
      {
        assert responses[i].id == first + i && responses[j].id == first + j;
      }
    }

    /** When both requests succeed and both bodies decode, the resolution
        succeeds: the summary names the deck, links to it and counts the
        upstream cards, and the templates are built from the decoded cards
        with ids from `first` on. */
    lemma ResolvedFromReplies(replies: Replies, first: CardId, info: DeckInfo, cards: CardsDoc)
      requires replies.info.Replied? && Decode(replies.info.body) == Ok(info)
      requires replies.cards.Replied? && Decode(replies.cards.body) == Ok(cards)
      ensures Resolution(replies, first) == Ok(Resolved(SummaryOf(info, cards), TemplatesOf(cards, first)))
      ensures SummaryOf(info, cards).details == Details(info.name, Some(config.baseUrl + "decks/" + DeckId()))
      ensures SummaryOf(info, cards).calls == |cards.calls| && SummaryOf(info, cards).responses == |cards.responses|
    {
    }

    /** Every upstream card becomes one template: the template sets are as
        large as the summary's counts. */
    lemma TemplateCounts(info: DeckInfo, cards: CardsDoc, first: CardId)
      ensures |TemplatesOf(cards, first).calls| == SummaryOf(info, cards).calls
      ensures |TemplatesOf(cards, first).responses| == SummaryOf(info, cards).responses
    {
      CallsDistinct(cards.calls, first);
      ResponsesDistinct(cards.responses, first + |cards.calls|);
      DistinctSetSize(CallsOf(cards.calls, first));
      DistinctSetSize(ResponsesOf(cards.responses, first + |cards.calls|));
    }

    /** The templates hold the call card of every upstream call. */
    lemma TemplatesHoldCall(cards: CardsDoc, first: CardId, k: nat)
      requires k < |cards.calls|
      ensures Cards.Call(first + k, [CallParts(cards.calls[k].text)], source.AsExternal()) in TemplatesOf(cards, first).calls
    {
      var calls := CallsOf(cards.calls, first);
      assert calls[k] in calls;
    }

    /** The templates hold the response card of every upstream response. */
    lemma TemplatesHoldResponse(cards: CardsDoc, first: CardId, k: nat)
      requires k < |cards.responses|
      ensures ResponseCard(cards.responses[k], first + |cards.calls| + k) in TemplatesOf(cards, first).responses
    {
      var responses := ResponsesOf(cards.responses, first + |cards.calls|);
      assert responses[k] in responses;
    }

    /** Every call template is one line from this source, built from an
        upstream call. */
    lemma CallTemplatesAreLines(cards: CardsDoc, first: CardId, c: Cards.Call)
      requires c in TemplatesOf(cards, first).calls
      ensures |c.parts| == 1 && c.source == source.AsExternal()
      ensures exists k :: 0 <= k < |cards.calls| && c.parts == [CallParts(cards.calls[k].text)]
    {
      var calls := CallsOf(cards.calls, first);
      var k :| 0 <= k < |calls| && calls[k] == c;
      assert c.parts == [CallParts(cards.calls[k].text)];
    }

    /** The call templates take the ids from `first` on, one per upstream call. */
    lemma CallIdInRange(raws: seq<RawCard>, first: CardId, c: Cards.Call)
      requires c in AsSet(CallsOf(raws, first))
      ensures first <= c.id < first + |raws|
    {
      var calls := CallsOf(raws, first);
      var i :| 0 <= i < |calls| && calls[i] == c;
    }

    /** The response templates take the ids from `first` on, one per upstream
        response. */
    lemma ResponseIdInRange(raws: seq<RawCard>, first: CardId, p: Cards.Response)
      requires p in AsSet(ResponsesOf(raws, first))
      ensures first <= p.id < first + |raws|
    {
      var responses := ResponsesOf(raws, first);
      var j :| 0 <= j < |responses| && responses[j] == p;
    }

    /** Call ids come before response ids, so no call shares its id with a
        response. */
    lemma TemplateIdsDisjoint(cards: CardsDoc, first: CardId, c: Cards.Call, p: Cards.Response)
      requires c in TemplatesOf(cards, first).calls && p in TemplatesOf(cards, first).responses
      ensures first <= c.id < first + |cards.calls| <= p.id < first + |cards.calls| + |cards.responses|
    {
      CallIdInRange(cards.calls, first, c);
      ResponseIdInRange(cards.responses, first + |cards.calls|, p);
    }
  }

  /** Loading details name the deck: two resolvers show the same loading
      name exactly when they resolve the same deck code. */
  lemma LoadingDetailsIdentify(a: Resolver, b: Resolver)
    ensures a.LoadingDetails().url == None
    ensures a.LoadingDetails() == b.LoadingDetails() <==> a.DeckId() == b.DeckId()
  {
    if a.LoadingDetails() == b.LoadingDetails() {
      var prefix := Kind + " ";
      assert a.LoadingDetails().name[|prefix|..] == a.DeckId();
      assert b.LoadingDetails().name[|prefix|..] == b.DeckId();
    }
  }
}
