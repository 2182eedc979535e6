/**
 * The recognition action `identifyPlant` and the two internal mutations it
 * ends with. Everything the action learns from outside (the API key in the
 * process environment, the image store, the image download, the Pl@ntNet
 * reply) is an input `Env`; the action's visible behaviour is the list of
 * calls it makes, in order, and the one patch it applies to its record.
 */
module PlantNet {
  import opened Wrappers
  import opened PlantNetTypes
  import opened Schema
  import opened Decimal
  import Identifications

  // ----- What the outside world answers -----

  /** A thrown value: an `Error` carries a message, anything else does not. */
  datatype Thrown = ErrorInstance(message: string) | NonError

  /** An awaited call either returns a value or throws. */
  datatype Attempt<T> = Returned(value: T) | Threw(error: Thrown)

  /** The reply to the identify POST: its status, and what reading its body gives. */
  datatype HttpResponse = HttpResponse(
    status: nat,
    text: Attempt<string>,
    json: Attempt<PlantNetResponse>)

  datatype Env = Env(
    apiKey: Option<string>,             // PLANTNET_API_KEY; None when unset
    imageUrl: Attempt<Option<string>>,  // ctx.storage.getUrl(storageId)
    imageType: Attempt<string>,         // fetch(imageUrl) then blob(): the blob's MIME type
    response: Attempt<HttpResponse>)    // the POST to the identify endpoint

  // ----- What the action does -----

  /** The patches the two internal mutations apply. */
  datatype Mutation =
    | StatusUpdate(status: TerminalStatus, errorMessage: Option<string>)   // updateIdentificationStatus
    | ResultsUpdate(matches: seq<PlantMatch>, rawApiResponse: PlantNetResponse) // updateIdentificationWithResults

  /** One awaited call made by the action. */
  datatype Call =
    | GetImageUrl
    | FetchImage(url: string)
    | PostIdentify(apiKey: string, filename: string)
    | ReadErrorBody
    | ReadJson
    | Mutate(mutation: Mutation)

  const NoApiKeyMessage: string := "Pl@ntNet API key not configured"
  const NoImageMessage: string := "Could not retrieve uploaded image"
  const NoMatchMessage: string := "No plant matches found. Try a clearer photo."
  const RateLimitMessage: string := "Rate limit exceeded. Please try again later."
  const InvalidKeyMessage: string := "Invalid API key"
  const ApiErrorPrefix: string := "Pl@ntNet API error: "
  const UnknownErrorMessage: string := "Unknown error occurred"

  /** `apiKey` is falsy for an unset variable and for the empty string alike. */
  predicate ApiKeyConfigured(apiKey: Option<string>)
    ensures ApiKeyConfigured(apiKey) ==> apiKey.Some? && |apiKey.value| > 0
    ensures apiKey == None || apiKey == Some("") ==> !ApiKeyConfigured(apiKey)
  {
    apiKey.Some? && apiKey.value != ""
  }

  /** JavaScript truthiness of an optional string. */
  predicate HasText(s: Option<string>)
  {
    s.Some? && s.value != ""
  }

  /** `response.ok`. */
  predicate IsOk(status: nat)
  {
    200 <= status <= 299
  }

  function Min(a: nat, b: nat): nat
  {
    if a <= b then a else b
  }

  /** The upload's file name: PNG keeps its extension, every other type is sent as JPEG. */
  function FileName(mimeType: string): (f: string)
    ensures f == "plant.png" <==> mimeType == "image/png"
    ensures f == "plant.png" || f == "plant.jpg"
  {
    if mimeType == "image/png" then "plant.png" else "plant.jpg"
  }

  /** The catch block's message. */
  function CaughtMessage(e: Thrown): (s: string)
    ensures e.ErrorInstance? ==> s == e.message
    ensures e.NonError? ==> s == UnknownErrorMessage
  {
    match e
    case ErrorInstance(message) => message
    case NonError => UnknownErrorMessage
  }

  // ----- Mapping the API's results to matches -----

  /** A family or genus name, or "Unknown" when absent or empty. */
  function NameOrUnknown(taxon: Option<TaxonName>): (s: string)
    ensures s != ""
    ensures s != "Unknown" ==> taxon.Some? && s == taxon.value.scientificNameWithoutAuthor
    ensures taxon.Some? && taxon.value.scientificNameWithoutAuthor != "" ==> s == taxon.value.scientificNameWithoutAuthor
  {
    if taxon.Some? && taxon.value.scientificNameWithoutAuthor != "" then taxon.value.scientificNameWithoutAuthor
    else "Unknown"
  }

  function ToMatchImage(img: PlantNetImage): MatchImage
  {
    MatchImage(img.url.m, img.citation)
  }

  /** `images.map(...)`: one match image per API image, in order. */
  function ToMatchImages(imgs: seq<PlantNetImage>): (r: seq<MatchImage>)
    ensures |r| == |imgs|
    ensures forall i :: 0 <= i < |r| ==> r[i].url == imgs[i].url.m && r[i].citation == imgs[i].citation
  {
    if imgs == [] then [] else [ToMatchImage(imgs[0])] + ToMatchImages(imgs[1..])
  }

  /** The match built from one API result. */
  function ToMatch(res: PlantNetResult): (m: PlantMatch)
    ensures m.score == res.score
    ensures var sp := res.species;
      m.species.scientificName ==
        if HasText(sp.scientificNameAuthorship)
        then sp.scientificNameWithoutAuthor + " " + sp.scientificNameAuthorship.value
        else sp.scientificNameWithoutAuthor
    ensures m.species.commonNames == if res.species.commonNames.Some? then res.species.commonNames.value else []
    ensures m.species.family == NameOrUnknown(res.species.family)
    ensures m.species.genus == NameOrUnknown(res.species.genus)
    ensures m.species.family != "" && m.species.genus != ""
    ensures m.species.family != "Unknown" ==> res.species.family.Some?
    ensures m.species.genus != "Unknown" ==> res.species.genus.Some?
    ensures m.images.Some? <==> res.images.Some?
    ensures res.images.Some? ==>
      |m.images.value| == Min(3, |res.images.value|)
      && forall i :: 0 <= i < |m.images.value| ==>
        m.images.value[i].url == res.images.value[i].url.m
        && m.images.value[i].citation == res.images.value[i].citation
  {
    var sp := res.species;
    var scientificName :=
      if HasText(sp.scientificNameAuthorship)
      then sp.scientificNameWithoutAuthor + " " + sp.scientificNameAuthorship.value
      else sp.scientificNameWithoutAuthor;
    PlantMatch(
      Species(
        scientificName,
        if sp.commonNames.Some? then sp.commonNames.value else [],
        NameOrUnknown(sp.family),
        NameOrUnknown(sp.genus)),
      res.score,
      if res.images.Some? then Some(ToMatchImages(res.images.value[..Min(3, |res.images.value|)])) else None)
  }

  /** `results.map(...)`: one match per result, in order. */
  function ToMatches(results: seq<PlantNetResult>): (r: seq<PlantMatch>)
    ensures |r| == |results|
    ensures forall i :: 0 <= i < |r| ==> r[i] == ToMatch(results[i])
  {
    if results == [] then [] else [ToMatch(results[0])] + ToMatches(results[1..])
  }

  /** `data.results.slice(0, 5).map(...)`: the first five results, ranking kept. */
  function MapResults(results: seq<PlantNetResult>): (r: seq<PlantMatch>)
    ensures |r| == Min(5, |results|)
    ensures forall i :: 0 <= i < |r| ==> r[i] == ToMatch(results[i])
    ensures forall i :: 0 <= i < |r| ==> r[i].images.Some? ==> |r[i].images.value| <= 3
  {
    ToMatches(results[..Min(5, |results|)])
  }

  // ----- The outcome of the action -----

  /** The status update for a non-OK reply. */
  function HttpFailure(status: nat, body: Attempt<string>): (m: Mutation)
    requires !IsOk(status)
    ensures m.StatusUpdate? && m.errorMessage.Some?
    ensures m.status == NoMatch <==> status == 404
    ensures status != 404 ==> m.status == Failed
    ensures status == 404 ==> m.errorMessage.value == NoMatchMessage
    ensures status == 429 ==> m == StatusUpdate(Failed, Some(RateLimitMessage))
    ensures status == 401 ==> m == StatusUpdate(Failed, Some(InvalidKeyMessage))
    ensures status !in {401, 404, 429} ==>
      var msg := m.errorMessage.value;
      var n := |ApiErrorPrefix| + |NatToString(status)|;
      && |msg| >= n
      && msg[..|ApiErrorPrefix|] == ApiErrorPrefix
      && msg[|ApiErrorPrefix|..n] == NatToString(status)
      && msg[n..] == if body.Returned? then " - " + body.value else ""
  {
    if status == 404 then StatusUpdate(NoMatch, Some(NoMatchMessage))
    else if status == 429 then StatusUpdate(Failed, Some(RateLimitMessage))
    else if status == 401 then StatusUpdate(Failed, Some(InvalidKeyMessage))
    else
      var detail := if body.Returned? then " - " + body.value else "";
      StatusUpdate(Failed, Some(ApiErrorPrefix + NatToString(status) + detail))
  }

  /** The update for an OK reply whose body parsed. */
  function ResultsOutcome(data: PlantNetResponse): (m: Mutation)
    ensures |data.results| == 0 <==> m == StatusUpdate(NoMatch, Some(NoMatchMessage))
    ensures m.ResultsUpdate? <==> |data.results| > 0
    ensures m.ResultsUpdate? ==> m.matches == MapResults(data.results) && m.rawApiResponse == data
  {
    var matches := MapResults(data.results);
    if |matches| == 0 then StatusUpdate(NoMatch, Some(NoMatchMessage))
    else ResultsUpdate(matches, data)
  }

  function Failure(message: string): Mutation
  {
    StatusUpdate(Failed, Some(message))
  }

  /** The one update the action applies, given what the outside world answers. */
  function Outcome(env: Env): (m: Mutation)
    ensures !ApiKeyConfigured(env.apiKey) ==> m == StatusUpdate(Failed, Some(NoApiKeyMessage))
    ensures m.StatusUpdate? ==> m.errorMessage.Some?
    ensures m.StatusUpdate? && m.status == NoMatch ==> m.errorMessage == Some(NoMatchMessage)
    ensures m.ResultsUpdate? ==>
      && 1 <= |m.matches| <= 5
      && m.matches == MapResults(m.rawApiResponse.results)
      && env.response.Returned? && env.response.value.json == Returned(m.rawApiResponse)
  {
    if !ApiKeyConfigured(env.apiKey) then Failure(NoApiKeyMessage)
    else match env.imageUrl
      case Threw(e) => Failure(CaughtMessage(e))
      case Returned(url) =>
        if !HasText(url) then Failure(NoImageMessage)
        else match env.imageType
        case Threw(e) => Failure(CaughtMessage(e))
        case Returned(_) =>
          match env.response
          case Threw(e) => Failure(CaughtMessage(e))
          case Returned(resp) =>
            if !IsOk(resp.status) then HttpFailure(resp.status, resp.text)
            else match resp.json
              case Threw(e) => Failure(CaughtMessage(e))
              case Returned(data) => ResultsOutcome(data)
  }

  /** The external calls the action makes before its update, in order. */
  function Requests(env: Env): (r: seq<Call>)
    ensures forall c :: c in r ==> !c.Mutate?
    ensures |r| <= 4
  {
    if !ApiKeyConfigured(env.apiKey) then []
    else
      [GetImageUrl] +
      match env.imageUrl
      case Threw(_) => []
      case Returned(url) =>
        if !HasText(url) then []
        else
        [FetchImage(url.value)] +
        match env.imageType
        case Threw(_) => []
        case Returned(mimeType) =>
          [PostIdentify(env.apiKey.value, FileName(mimeType))] +
          match env.response
          case Threw(_) => []
          case Returned(resp) => (if IsOk(resp.status) then [ReadJson] else [ReadErrorBody])
  }

  // ----- The internal mutations -----

  function MutationPatch(m: Mutation): (p: Patch)
    ensures p.status.Put? && p.status.value != Pending
    ensures m.StatusUpdate? ==> p.matches.Keep? && p.rawApiResponse.Keep?
    ensures m.ResultsUpdate? ==> p.status.value == Success && p.errorMessage.Keep?
  {
    match m
    case StatusUpdate(status, errorMessage) =>
      Patch(Field<Status>.Put(status), Keep, Keep, if errorMessage.Some? then Put(errorMessage.value) else Remove)
    case ResultsUpdate(matches, raw) =>
      Patch(Put(Success), Put(matches), Put(raw), Keep)
  }

  function ApplyMutation(doc: Identification, m: Mutation): Identification
  {
    ApplyPatch(doc, MutationPatch(m))
  }

  /** `updateIdentificationStatus`: set the status and the message (an absent message clears it). */
  method UpdateIdentificationStatus(
    t: Identifications.Table, id: Identifications.Id, status: TerminalStatus, errorMessage: Option<string>)
    requires t.Valid()
    modifies t
    ensures t.Valid() && t.order == old(t.order) && t.nextId == old(t.nextId)
    ensures t.records == if id in old(t.records)
      then old(t.records)[id := old(t.records)[id].(status := status, errorMessage := errorMessage)]
      else old(t.records)
  {
    t.Patch(id, MutationPatch(StatusUpdate(status, errorMessage)));
  }

  /** `updateIdentificationWithResults`: mark success and store the matches and the raw reply. */
  method UpdateIdentificationWithResults(
    t: Identifications.Table, id: Identifications.Id, matches: seq<PlantMatch>, rawApiResponse: PlantNetResponse)
    requires t.Valid()
    modifies t
    ensures t.Valid() && t.order == old(t.order) && t.nextId == old(t.nextId)
    ensures t.records == if id in old(t.records)
      then old(t.records)[id := old(t.records)[id].(status := Success, matches := Some(matches), rawApiResponse := Some(rawApiResponse))]
      else old(t.records)
  {
    t.Patch(id, MutationPatch(ResultsUpdate(matches, rawApiResponse)));
  }

  /** `ctx.runMutation` on one of the two internal mutations. */
  method Dispatch(t: Identifications.Table, id: Identifications.Id, m: Mutation)
    requires t.Valid()
    modifies t
    ensures t.Valid() && t.order == old(t.order) && t.nextId == old(t.nextId)
    ensures t.records == if id in old(t.records) then old(t.records)[id := ApplyMutation(old(t.records)[id], m)] else old(t.records)
  {
    match m
    case StatusUpdate(status, errorMessage) => UpdateIdentificationStatus(t, id, status, errorMessage);
    case ResultsUpdate(matches, raw) => UpdateIdentificationWithResults(t, id, matches, raw);
  }

  // ----- The action -----

  /**
   * `identifyPlant`: the calls it makes are `Requests(env)` followed by exactly
   * one update, `Outcome(env)`, which is applied to the record `id`.
   */
  method IdentifyPlant(t: Identifications.Table, id: Identifications.Id, env: Env) returns (calls: seq<Call>)
    requires t.Valid()
    modifies t
    ensures t.Valid() && t.order == old(t.order) && t.nextId == old(t.nextId)
    ensures calls == Requests(env) + [Mutate(Outcome(env))]
    ensures t.records == if id in old(t.records)
      then old(t.records)[id := ApplyMutation(old(t.records)[id], Outcome(env))]
      else old(t.records)
  {
    var m: Mutation;
    if !ApiKeyConfigured(env.apiKey) {
      m := StatusUpdate(Failed, Some(NoApiKeyMessage));
      assert m == Outcome(env) && [] == Requests(env);
      Dispatch(t, id, m);
      return [Mutate(m)];
    }
    var apiKey := env.apiKey.value;
    calls := [];
    var caught: Thrown := NonError;
    label try: {
      calls := calls + [GetImageUrl];
      if env.imageUrl.Threw? {
        caught := env.imageUrl.error;
        break try;
      }
      var imageUrl := env.imageUrl.value;
      if !HasText(imageUrl) {
        m := StatusUpdate(Failed, Some(NoImageMessage));
        assert m == Outcome(env) && calls == Requests(env);
        Dispatch(t, id, m);
        return calls + [Mutate(m)];
      }

      calls := calls + [FetchImage(imageUrl.value)];
      if env.imageType.Threw? {
        caught := env.imageType.error;
        break try;
      }
      var mimeType := env.imageType.value;
      var filename := "plant.jpg";
      if mimeType == "image/png" {
        filename := "plant.png";
      } else if mimeType == "image/jpeg" || mimeType == "image/jpg" {
        filename := "plant.jpg";
      }

      calls := calls + [PostIdentify(apiKey, filename)];
      if env.response.Threw? {
        caught := env.response.error;
        break try;
      }
      var response := env.response.value;

      if !IsOk(response.status) {
        var errorMessage := ApiErrorPrefix + NatToString(response.status);
        assert errorMessage + "" == errorMessage;
        calls := calls + [ReadErrorBody];
        if response.text.Returned? {
          errorMessage := errorMessage + (" - " + response.text.value);
        }
        if response.status == 404 {
          m := StatusUpdate(NoMatch, Some(NoMatchMessage));
          assert m == Outcome(env) && calls == Requests(env);
          Dispatch(t, id, m);
          return calls + [Mutate(m)];
        }
        if response.status == 429 {
          errorMessage := RateLimitMessage;
        } else if response.status == 401 {
          errorMessage := InvalidKeyMessage;
        }
        m := StatusUpdate(Failed, Some(errorMessage));
        assert m == Outcome(env) && calls == Requests(env);
        Dispatch(t, id, m);
        return calls + [Mutate(m)];
      }

      calls := calls + [ReadJson];
      if response.json.Threw? {
        caught := response.json.error;
        break try;
      }
      var data := response.json.value;
      var matches := MapResults(data.results);
      if |matches| == 0 {
        m := StatusUpdate(NoMatch, Some(NoMatchMessage));
        assert m == Outcome(env) && calls == Requests(env);
        Dispatch(t, id, m);
        return calls + [Mutate(m)];
      }
      m := ResultsUpdate(matches, data);
      assert m == Outcome(env) && calls == Requests(env);
      Dispatch(t, id, m);
      return calls + [Mutate(m)];
    }
    // catch (error)
    m := StatusUpdate(Failed, Some(CaughtMessage(caught)));
    assert m == Outcome(env) && calls == Requests(env);
    Dispatch(t, id, m);
    calls := calls + [Mutate(m)];
  }

  // ----- Properties of the action -----

  /** With no API key the action fails at once: no storage lookup, no download, no POST. */
  lemma NoApiKeyFailsWithoutCalls(env: Env)
    requires !ApiKeyConfigured(env.apiKey)
    ensures Requests(env) == []
    ensures Outcome(env) == StatusUpdate(Failed, Some(NoApiKeyMessage))
  {
  }

  /** When the image store has no URL for the upload, nothing is downloaded or posted. */
  lemma MissingImageUrlFails(env: Env)
    requires ApiKeyConfigured(env.apiKey) && env.imageUrl.Returned? && !HasText(env.imageUrl.value)
    ensures Requests(env) == [GetImageUrl]
    ensures Outcome(env) == StatusUpdate(Failed, Some(NoImageMessage))
  {
  }

  /** The image is posted under the name its MIME type selects, with the configured key. */
  lemma PostedFileName(env: Env, i: nat)
    requires i < |Requests(env)| && Requests(env)[i].PostIdentify?
    ensures ApiKeyConfigured(env.apiKey) && Requests(env)[i].apiKey == env.apiKey.value
    ensures env.imageType.Returned? && Requests(env)[i].filename == FileName(env.imageType.value)
    ensures i == 2 && Requests(env)[..2] == [GetImageUrl, FetchImage(env.imageUrl.value.value)]
  {
  }

  /** A non-OK reply is classified by `HttpFailure`, after an attempt to read its body. */
  lemma HttpFailureOutcome(env: Env)
    requires ApiKeyConfigured(env.apiKey)
    requires env.imageUrl.Returned? && HasText(env.imageUrl.value) && env.imageType.Returned?
    requires env.response.Returned? && !IsOk(env.response.value.status)
    ensures Outcome(env) == HttpFailure(env.response.value.status, env.response.value.text)
    ensures Requests(env) == [GetImageUrl, FetchImage(env.imageUrl.value.value),
                              PostIdentify(env.apiKey.value, FileName(env.imageType.value)), ReadErrorBody]
  {
  }

  /** The length of the run of decimal digits that starts a string. */
  function LeadingDigits(x: string): nat
  {
    if x == [] || !('0' <= x[0] <= '9') then 0 else 1 + LeadingDigits(x[1..])
  }

  /** Digits followed by nothing or by a text starting with a space: the digits are the whole leading run. */
  lemma {:induction false} LeadingDigitsOfCode(s: string, d: string)
    requires IsDigits(s)
    requires d == [] || d[0] == ' '
    ensures LeadingDigits(s + d) == |s|
    decreases |s|
  {
    if s == [] {
      assert s + d == d;
    } else {
      assert (s + d)[0] == s[0];
      assert (s + d)[1..] == s[1..] + d;
      LeadingDigitsOfCode(s[1..], d);
    }
  }

  /**
   * The generic API-error message identifies the status code, whatever the
   * bodies that follow it: different codes give different messages.
   */
  lemma ApiErrorMessageDeterminesCode(a: nat, bodyA: Attempt<string>, b: nat, bodyB: Attempt<string>)
    requires !IsOk(a) && !IsOk(b) && a !in {401, 404, 429} && b !in {401, 404, 429}
    requires HttpFailure(a, bodyA).errorMessage == HttpFailure(b, bodyB).errorMessage
    ensures a == b
  {
    var sa, sb := NatToString(a), NatToString(b);
    var da := if bodyA.Returned? then " - " + bodyA.value else "";
    var db := if bodyB.Returned? then " - " + bodyB.value else "";
    assert HttpFailure(a, bodyA).errorMessage.value == ApiErrorPrefix + sa + da;
    assert HttpFailure(b, bodyB).errorMessage.value == ApiErrorPrefix + sb + db;
    assert (ApiErrorPrefix + sa + da)[|ApiErrorPrefix|..] == sa + da;
    assert (ApiErrorPrefix + sb + db)[|ApiErrorPrefix|..] == sb + db;
    LeadingDigitsOfCode(sa, da);
    LeadingDigitsOfCode(sb, db);
    assert sa == (sa + da)[..|sa|] && sb == (sb + db)[..|sb|];
    NatToStringInjective(a, b);
  }

  /** A parsed OK reply: no results is `no_match`, otherwise success with the mapped matches and the raw reply. */
  lemma OkResponseOutcome(env: Env, data: PlantNetResponse)
    requires ApiKeyConfigured(env.apiKey)
    requires env.imageUrl.Returned? && HasText(env.imageUrl.value) && env.imageType.Returned?
    requires env.response.Returned? && IsOk(env.response.value.status) && env.response.value.json == Returned(data)
    ensures |data.results| == 0 ==> Outcome(env) == StatusUpdate(NoMatch, Some(NoMatchMessage))
    ensures |data.results| > 0 ==> Outcome(env) == ResultsUpdate(MapResults(data.results), data)
  {
  }

  /** Whatever step throws, the record fails with the thrown error's message. */
  lemma ThrownErrorFails(env: Env, e: Thrown)
    requires ApiKeyConfigured(env.apiKey)
    requires || env.imageUrl == Threw(e)
             || (env.imageUrl.Returned? && HasText(env.imageUrl.value) &&
                 (|| env.imageType == Threw(e)
                  || (env.imageType.Returned? &&
                      (|| env.response == Threw(e)
                       || (env.response.Returned? && IsOk(env.response.value.status)
                           && env.response.value.json == Threw(e))))))
    ensures Outcome(env) == StatusUpdate(Failed, Some(CaughtMessage(e)))
  {
  }

  function MutationCount(calls: seq<Call>): nat
  {
    if calls == [] then 0 else (if calls[0].Mutate? then 1 else 0) + MutationCount(calls[1..])
  }

  lemma {:induction false} MutationCountAppend(a: seq<Call>, b: seq<Call>)
    ensures MutationCount(a + b) == MutationCount(a) + MutationCount(b)
    decreases |a|
  {
    if a != [] {
      assert (a + b)[1..] == a[1..] + b;
      MutationCountAppend(a[1..], b);
    } else {
      assert a + b == b;
    }
  }

  lemma {:induction false} NoMutationsCountZero(calls: seq<Call>)
    requires forall c :: c in calls ==> !c.Mutate?
    ensures MutationCount(calls) == 0
    decreases |calls|
  {
    if calls != [] {
      assert calls[0] in calls;
      NoMutationsCountZero(calls[1..]);
    }
  }

  /** Every path through the action makes exactly one update, and makes it last. */
  lemma ExactlyOneUpdate(env: Env)
    ensures var calls := Requests(env) + [Mutate(Outcome(env))];
      MutationCount(calls) == 1 && calls[|calls| - 1].Mutate?
  {
    NoMutationsCountZero(Requests(env));
    MutationCountAppend(Requests(env), [Mutate(Outcome(env))]);
  }

  /**
   * What a finished record looks like: matches exactly when it succeeded, then
   * between one and five of them with at most three images each, and a message
   * whenever it failed or found nothing.
   */
  predicate Resolved(doc: Identification)
  {
    && doc.status != Pending
    && (doc.matches.Some? <==> doc.status == Success)
    && (doc.status == Success ==>
          && 1 <= |doc.matches.value| <= 5
          && forall i :: 0 <= i < |doc.matches.value| ==>
               doc.matches.value[i].images.Some? ==> |doc.matches.value[i].images.value| <= 3)
    && (doc.status != Success ==> doc.errorMessage.Some?)
  }

  /** The action takes a freshly created record to a resolved one, keeping its image and timestamp. */
  lemma PendingRecordResolves(doc: Identification, env: Env)
    requires doc.status == Pending && doc.matches.None?
    ensures var d := ApplyMutation(doc, Outcome(env));
      Resolved(d) && d.uploadedImageId == doc.uploadedImageId && d.timestamp == doc.timestamp
  {
  }

  /** A result with only a bare name and one common name maps to defaults for the rest. */
  lemma BareResultExample()
    ensures var res := PlantNetResult(0.92, PlantNetSpecies("Rosa gallica", None, None, None, Some(["French rose"])), None);
      ToMatch(res) == PlantMatch(Species("Rosa gallica", ["French rose"], "Unknown", "Unknown"), 0.92, None)
  {
  }
}
