/** rust/src/api/user_search.rs: the user-search stream, which has no
    snapshot, and its result types. `usize` counts widen to `u64` without
    loss on the 64-bit targets (`W.Usize` is `W.U64`). */
module UserSearch {
  import opened Wrappers
  import opened Errors
  import W = Whitenoise
  import Relay

  datatype MatchQuality = Exact | Prefix | Contains

  datatype MatchedField = Name | Nip05 | DisplayName | About

  datatype SearchUpdateTrigger =
    | RadiusStarted(radius: W.U8)
    | ResultsFound
    | RadiusCompleted(radius: W.U8, totalPubkeysSearched: W.U64)
    | RadiusCapped(radius: W.U8, cap: W.U64, actual: W.U64)
    | RadiusTimeout(radius: W.U8)
    | SearchCompleted(finalRadius: W.U8, totalResults: W.U64)
    | Error(message: string)

  datatype UserSearchResult = UserSearchResult(
    pubkey: string,
    radius: W.U8,
    matchQuality: MatchQuality,
    bestField: MatchedField,
    matchedFields: seq<MatchedField>)

  datatype UserSearchUpdate = UserSearchUpdate(
    trigger: SearchUpdateTrigger,
    newResults: seq<UserSearchResult>,
    totalResultCount: W.U64)

  // --- enums --------------------------------------------------------------

  /** `From<WnMatchQuality>`: `QualityBack` reads the original back. */
  function ConvertQuality(quality: W.MatchQuality): (r: MatchQuality)
    ensures QualityBack(r) == quality
  {
    match quality
    case Exact => Exact
    case Prefix => Prefix
    case Contains => Contains
  }

  function QualityBack(quality: MatchQuality): W.MatchQuality {
    match quality
    case Exact => W.Exact
    case Prefix => W.Prefix
    case Contains => W.Contains
  }

  /** Same-named variants, and a bijection. */
  lemma QualityBijection(q: W.MatchQuality, p: MatchQuality)
    ensures QualityBack(ConvertQuality(q)) == q && ConvertQuality(QualityBack(p)) == p
    ensures ConvertQuality(W.Exact) == Exact && ConvertQuality(W.Prefix) == Prefix
    ensures ConvertQuality(W.Contains) == Contains
  {
  }

  /** `From<WnMatchedField>`: `FieldBack` reads the original back. */
  function ConvertField(field: W.MatchedField): (r: MatchedField)
    ensures FieldBack(r) == field
  {
    match field
    case Name => Name
    case Nip05 => Nip05
    case DisplayName => DisplayName
    case About => About
  }

  function FieldBack(field: MatchedField): W.MatchedField {
    match field
    case Name => W.Name
    case Nip05 => W.Nip05
    case DisplayName => W.DisplayName
    case About => W.About
  }

  /** Same-named variants, and a bijection. */
  lemma FieldBijection(f: W.MatchedField, g: MatchedField)
    ensures FieldBack(ConvertField(f)) == f && ConvertField(FieldBack(g)) == g
    ensures ConvertField(W.Name) == Name && ConvertField(W.Nip05) == Nip05
    ensures ConvertField(W.DisplayName) == DisplayName && ConvertField(W.About) == About
  {
  }

  /** `From<WnSearchUpdateTrigger>`: each variant to its namesake, with its
      fields; the `usize` counts widen to `u64`. */
  function ConvertTrigger(trigger: W.SearchUpdateTrigger): (r: SearchUpdateTrigger)
    ensures TriggerBack(r) == trigger
  {
    match trigger
    case RadiusStarted(radius) => RadiusStarted(radius)
    case ResultsFound => ResultsFound
    case RadiusCompleted(radius, searched) => RadiusCompleted(radius, searched)
    case RadiusCapped(radius, cap, actual) => RadiusCapped(radius, cap, actual)
    case RadiusTimeout(radius) => RadiusTimeout(radius)
    case SearchCompleted(finalRadius, total) => SearchCompleted(finalRadius, total)
    case Error(message) => Error(message)
  }

  /** Reads a Flutter trigger back, the counts narrowing to `usize`. */
  function TriggerBack(trigger: SearchUpdateTrigger): W.SearchUpdateTrigger {
    match trigger
    case RadiusStarted(radius) => W.RadiusStarted(radius)
    case ResultsFound => W.ResultsFound
    case RadiusCompleted(radius, searched) => W.RadiusCompleted(radius, searched)
    case RadiusCapped(radius, cap, actual) => W.RadiusCapped(radius, cap, actual)
    case RadiusTimeout(radius) => W.RadiusTimeout(radius)
    case SearchCompleted(finalRadius, total) => W.SearchCompleted(finalRadius, total)
    case Error(message) => W.Error(message)
  }

  /** The trigger conversion keeps the variant and every field value: it is
      inverted by `TriggerBack` in both directions. */
  lemma TriggerBijection(t: W.SearchUpdateTrigger, u: SearchUpdateTrigger)
    ensures TriggerBack(ConvertTrigger(t)) == t
    ensures ConvertTrigger(TriggerBack(u)) == u
  {
  }

  /** The concrete conversions the module's own tests check. */
  lemma TriggerExamples()
    ensures ConvertTrigger(W.RadiusStarted(2)) == RadiusStarted(2)
    ensures ConvertTrigger(W.ResultsFound) == ResultsFound
    ensures ConvertTrigger(W.RadiusCompleted(1, 500)) == RadiusCompleted(1, 500)
    ensures ConvertTrigger(W.RadiusCapped(3, 10_000, 25_000)) == RadiusCapped(3, 10_000, 25_000)
    ensures ConvertTrigger(W.RadiusTimeout(4)) == RadiusTimeout(4)
    ensures ConvertTrigger(W.SearchCompleted(2, 42)) == SearchCompleted(2, 42)
    ensures ConvertTrigger(W.Error("something broke")) == Error("something broke")
  {
  }

  // --- results ------------------------------------------------------------

  /** `From<WnUserSearchResult>`; the metadata field is not modelled. */
  function ConvertResult(result: W.UserSearchResult): (r: UserSearchResult)
    ensures r.pubkey == result.pubkey.ToHex() && r.radius == result.radius
    ensures r.matchQuality == ConvertQuality(result.matchQuality)
    ensures r.bestField == ConvertField(result.bestField)
    ensures |r.matchedFields| == |result.matchedFields|
    ensures forall i :: 0 <= i < |result.matchedFields| ==>
              r.matchedFields[i] == ConvertField(result.matchedFields[i])
  {
    Relay.MapSeqAt(ConvertField, result.matchedFields);
    UserSearchResult(
      result.pubkey.ToHex(),
      result.radius,
      ConvertQuality(result.matchQuality),
      ConvertField(result.bestField),
      Relay.MapSeq(ConvertField, result.matchedFields))
  }

  /** `From<WnUserSearchUpdate>`. */
  function ConvertUpdate(update: W.UserSearchUpdate): (r: UserSearchUpdate)
    ensures r.trigger == ConvertTrigger(update.trigger)
    ensures r.totalResultCount == update.totalResultCount
    ensures |r.newResults| == |update.newResults|
    ensures forall i :: 0 <= i < |update.newResults| ==> r.newResults[i] == ConvertResult(update.newResults[i])
  {
    Relay.MapSeqAt(ConvertResult, update.newResults);
    UserSearchUpdate(
      ConvertTrigger(update.trigger),
      Relay.MapSeq(ConvertResult, update.newResults),
      update.totalResultCount)
  }

  // --- the stream ---------------------------------------------------------

  /** The steps before the stream starts: instance, searcher key, then the
      search built from the caller's query and radii. */
  function Prepare(instance: Option<W.Whitenoise>, accountPubkey: string, query: string, radiusStart: W.U8, radiusEnd: W.U8)
    : (r: Result<seq<Relay.Recv<W.UserSearchUpdate>>, ApiError>)
    ensures instance.None? ==> r == Failure(NotInitialized)
    ensures instance.Some? && instance.value.parsePublicKey(accountPubkey).None? ==>
              r == Failure(InvalidPublicKey(accountPubkey))
    ensures instance.Some? && instance.value.parsePublicKey(accountPubkey).Some? ==>
              var params := W.UserSearchParams(query, instance.value.parsePublicKey(accountPubkey).value, radiusStart, radiusEnd);
              match instance.value.searchUsers(params)
              case Success(rx) => r == Success(rx)
              case Failure(e) => r == Failure(Whitenoise(e))
  {
    if instance.None? then Failure(NotInitialized)
    else
      var whitenoise := instance.value;
      match whitenoise.parsePublicKey(accountPubkey)
      case None => Failure(InvalidPublicKey(accountPubkey))
      case Some(pubkey) =>
        var params := W.UserSearchParams(query, pubkey, radiusStart, radiusEnd);
        match whitenoise.searchUsers(params)
        case Failure(e) => Failure(Whitenoise(e))
        case Success(rx) => Success(rx)
  }

  /** `search_users`. A failure of `Prepare` returns before the sink is
      touched; otherwise every update is relayed with no snapshot in front. */
  method SearchUsers(instance: Option<W.Whitenoise>, accountPubkey: string, query: string,
                     radiusStart: W.U8, radiusEnd: W.U8, sink: Relay.Sink<UserSearchUpdate>)
      returns (r: Result<(), ApiError>, read: nat)
    requires sink.Valid()
    modifies sink
    ensures sink.Valid() && sink.capacity == old(sink.capacity)
    ensures var prepared := Prepare(instance, accountPubkey, query, radiusStart, radiusEnd);
            (r.Success? <==> prepared.Success?)
            && (r.Failure? ==> r.error == prepared.error && sink.accepted == old(sink.accepted) && read == 0)
            && (r.Success? ==>
                  sink.accepted == old(sink.accepted) + Relay.Delivered(None, prepared.value, ConvertUpdate, old(sink.Room()))
                  && read <= |prepared.value|)
  {
    var prepared := Prepare(instance, accountPubkey, query, radiusStart, radiusEnd);
    if prepared.Failure? {
      return Failure(prepared.error), 0;
    }
    read := Relay.Relay(None, prepared.value, ConvertUpdate, sink);
    r := Success(());
  }
}
