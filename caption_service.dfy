/**
 * `generateCaptions` (src/services/openaiService.ts:17-120) with the remote
 * Firebase call passed in as a function from request to call result and the
 * `toast.error` notifications returned as a sequence of texts.
 */
module CaptionService {
  import opened Wrappers
  import opened Whitespace
  import opened Captions
  import opened Failures

  /** The payload sent to the `generateCaptions` callable (lines 32-38). */
  datatype Request = Request(tone: string, platform: string, postIdea: string, niche: string, goal: string)

  /** `result.data` when it is an object; `captions` is `None` when falsy (absent, `null`, ...). */
  datatype RawResponse = RawResponse(captions: Option<seq<Caption>>, requestsRemaining: int)

  /** `CaptionResponse` (lines 12-15), what a successful call returns. */
  datatype CaptionResponse = CaptionResponse(captions: seq<Caption>, requestsRemaining: int)

  /** How the awaited remote call ends: it returns `result.data` (`None` when falsy) or it throws. */
  datatype CallResult = Returned(data: Option<RawResponse>) | Threw(error: CallError)

  /**
   * The returned value (`None` for `null`) and the texts passed to
   * `toast.error`; `failure` is the model's record of which failure branch
   * was taken, which the caller does not see.
   */
  datatype Outcome = Outcome(result: Option<CaptionResponse>, failure: Option<FailureClass>, notices: seq<string>)

  /** `postIdea || niche` with all five fields present (lines 32-38). */
  function BuildRequest(platform: string, tone: string, niche: string, goal: string, postIdea: Option<string>): (req: Request)
    ensures req.platform == platform && req.tone == tone && req.niche == niche && req.goal == goal
    ensures postIdea.Some? && postIdea.value != "" ==> req.postIdea == postIdea.value
    ensures postIdea.None? || postIdea.value == "" ==> req.postIdea == niche
    ensures niche != "" ==> req.postIdea != ""
  {
    var idea := if postIdea.Some? && postIdea.value != "" then postIdea.value else niche;
    Request(tone, platform, idea, niche, goal)
  }

  /** Everything after the `await` (lines 48-72) and the `catch` block (lines 73-119). */
  function HandleResult(res: CallResult): (o: Outcome)
    ensures o.result.None? <==> o.failure.Some?
    ensures o.result.None? ==> |o.notices| == 1 && o.notices[0] != ""
    ensures o.result.Some? ==> o.notices == []
    ensures o.failure == Some(ShapeViolation) <==>
      res.Returned? && (res.data.None? || res.data.value.captions.None?)
    ensures o.failure == Some(ShapeViolation) ==> o.notices == [InvalidResponseNotice]
    ensures o.failure != Some(ServiceInternalError)
    ensures o.result.Some? ==>
      && res.Returned? && res.data.Some? && res.data.value.captions.Some?
      && |o.result.value.captions| == |res.data.value.captions.value|
      && o.result.value.requestsRemaining == res.data.value.requestsRemaining
  {
    match res
    case Returned(data) =>
      if data.None? || data.value.captions.None? then
        Outcome(None, Some(ShapeViolation), [Notice(ShapeViolation, CallError(None, None))])
      else
        Outcome(Some(CaptionResponse(NormalizeAll(data.value.captions.value), data.value.requestsRemaining)), None, [])
    case Threw(error) =>
      var cls := Classify(error);
      Outcome(None, Some(cls), [Notice(cls, error)])
  }

  /** The whole operation: one call of `service` with the built request. */
  function GenerateCaptions(
    platform: string, tone: string, niche: string, goal: string, postIdea: Option<string>,
    service: Request -> CallResult): (o: Outcome)
    ensures o.result.None? <==> |o.notices| == 1
    ensures o.result.Some? <==> o.notices == []
  {
    HandleResult(service(BuildRequest(platform, tone, niche, goal, postIdea)))
  }

  /** The outcome depends on the remote service only through its answer to the built request. */
  lemma OnlyBuiltRequestIsSent(
    platform: string, tone: string, niche: string, goal: string, postIdea: Option<string>,
    s1: Request -> CallResult, s2: Request -> CallResult)
    requires s1(BuildRequest(platform, tone, niche, goal, postIdea)) == s2(BuildRequest(platform, tone, niche, goal, postIdea))
    ensures GenerateCaptions(platform, tone, niche, goal, postIdea, s1) == GenerateCaptions(platform, tone, niche, goal, postIdea, s2)
  {
  }

  /** On success the captions are the normalised input captions, in the same order. */
  lemma SuccessKeepsOrder(res: CallResult)
    requires res.Returned? && res.data.Some? && res.data.value.captions.Some?
    ensures HandleResult(res).result.Some?
    ensures var cs := res.data.value.captions.value;
      var out := HandleResult(res).result.value.captions;
      |out| == |cs| && forall i :: 0 <= i < |cs| ==> out[i] == Normalize(cs[i]) && !IsLegacy(out[i])
  {
  }

  /** An empty `captions` array is truthy, so it is accepted and gives no captions. */
  lemma EmptyCaptionsAccepted(remaining: int)
    ensures HandleResult(Returned(Some(RawResponse(Some([]), remaining)))) ==
      Outcome(Some(CaptionResponse([], remaining)), None, [])
  {
  }

  /** A thrown error is classified by the table and its single notice is the class's text. */
  lemma ThrownErrorIsClassified(e: CallError)
    ensures HandleResult(Threw(e)).result.None?
    ensures HandleResult(Threw(e)).failure == Some(Classify(e))
    ensures HandleResult(Threw(e)).notices == [Notice(Classify(e), e)]
    ensures Matches(Classify(e), e)
  {
    ClassifyIsFirstMatch(e);
  }

  // ----- Worked examples -----

  /** `("instagram", "playful", "coffee shops", "drive foot traffic")` without a post idea. */
  lemma CoffeeShopRequest()
    ensures BuildRequest("instagram", "playful", "coffee shops", "drive foot traffic", None) ==
      Request("playful", "instagram", "coffee shops", "coffee shops", "drive foot traffic")
  {
  }

  /** A legacy caption with `tags: "  #coffee  #local "` gets `hashtags: ["#coffee", "#local"]`. */
  lemma CoffeeShopResponse(tags: string)
    requires tags == "  #coffee  #local "
    ensures var legacy := Caption("T", "C", "Visit us", None, TagsText(tags));
      HandleResult(Returned(Some(RawResponse(Some([legacy]), 4)))) ==
      Outcome(Some(CaptionResponse([legacy.(hashtags := Some(["#coffee", "#local"]))], 4)), None, [])
  {
    var legacy := Caption("T", "C", "Visit us", None, TagsText(tags));
    var out := legacy.(hashtags := Some(["#coffee", "#local"]));
    assert Normalize(legacy) == out by {
      CoffeeTags(tags);
    }
    assert NormalizeAll([legacy]) == [out] by {
      assert NormalizeAll([legacy])[0] == Normalize(legacy);
    }
  }

  lemma CoffeeTags(tags: string)
    requires tags == "  #coffee  #local "
    ensures SplitWs(tags) == ["#coffee", "#local"]
  {
    assert tags == "  " + ("#coffee" + ("  " + ("#local" + " ")));
    TwoTokens("  ", "#coffee", "  ", "#local", " ");
  }

  /** An `unauthenticated` failure returns `null` with the sign-in notice. */
  lemma UnauthenticatedNeedsLogin()
    ensures HandleResult(Threw(CallError(Some("unauthenticated"), None))) ==
      Outcome(None, Some(NotAuthenticated), [LoginNotice])
  {
  }

  /** A codeless `network timeout` failure echoes its message. */
  lemma NetworkTimeoutIsEchoed(msg: string)
    requires msg == "network timeout"
    ensures HandleResult(Threw(CallError(None, Some(msg)))).notices == ["Error: network timeout"]
  {
    var e := CallError(None, Some(msg));
    assert HandleResult(Threw(e)).notices == ["Error: " + msg] by {
      FirstCharAbsent(msg, "CORS");
      FirstCharAbsent(msg, "limit_reached");
      UnmatchedMessageIsEchoed(e);
    }
    assert "Error: " + msg == "Error: network timeout";
  }
}
