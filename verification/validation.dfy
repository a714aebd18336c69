/**
 Input rules of the guide-click analytics endpoints: the slug pattern for guide
 ids, the length limits, the bot User-Agent test, the payload validation of
 `/analytics/guide-click` and the back-link check of `/analytics/guide-back-click`.
 */
module Validation {
  import opened Text
  import opened Json
  import opened Common

  const MaxGuideIdLength: nat := 100
  const MaxTitleLength: nat := 200
  const MaxHrefLength: nat := 300
  const MaxUaLength: nat := 255

  predicate IsSlugChar(c: char) {
    ('a' <= c <= 'z') || ('0' <= c <= '9') || c == '-'
  }

  /** A non-empty string over `[a-z0-9-]`. */
  predicate IsSlug(s: string) {
    |s| > 0 && forall i :: 0 <= i < |s| ==> IsSlugChar(s[i])
  }

  /** `re.match(r'^[a-z0-9\-]+$', s)` succeeds. Python's `$` also matches just
      before a final newline, so a slug followed by one `\n` matches too. */
  predicate SlugPatternMatches(s: string) {
    || IsSlug(s)
    || (|s| >= 2 && s[|s| - 1] == '\n' && IsSlug(s[..|s| - 1]))
  }

  /** On a stripped string the pattern accepts exactly the slugs: the trailing
      newline that `$` tolerates has already been stripped away. */
  lemma SlugPatternOnStripped(s: string)
    requires NoEdgeSpace(s)
    ensures SlugPatternMatches(s) <==> IsSlug(s)
  {
  }

  /** The alternatives of `BOT_UA_RE`. */
  const BotSignatures: seq<string> :=
    ["bot", "spider", "crawl", "scraper", "facebookexternalhit", "twitterbot"]

  /** `_is_bot_request(ua)`: false for an empty User-Agent, otherwise whether any
      signature occurs in it, compared case-insensitively. Every signature has at
      least three characters, so a shorter header is never a bot, and any header
      containing `bot` in any case is one. */
  predicate IsBotRequest(ua: string)
    ensures IsBotRequest(ua) ==> |ua| >= 3
    ensures ContainsFolded(ua, "bot") ==> IsBotRequest(ua)
  {
    if |ua| == 0 then false
    else
      assert ContainsFolded(ua, "bot") ==> ContainsFolded(ua, BotSignatures[0]);
      exists k :: 0 <= k < |BotSignatures| && ContainsFolded(ua, BotSignatures[k])
  }

  /** The bot test ignores case, and an empty User-Agent is never a bot. */
  lemma BotTestIgnoresCase(ua: string)
    ensures IsBotRequest(UpperAscii(ua)) <==> IsBotRequest(ua)
    ensures !IsBotRequest("")
  {
    forall k | 0 <= k < |BotSignatures|
      ensures ContainsFolded(UpperAscii(ua), BotSignatures[k]) <==> ContainsFolded(ua, BotSignatures[k])
    {
      ContainsFoldedUpper(ua, BotSignatures[k]);
    }
  }

  /** The stored User-Agent: the header, or `''` when absent, cut to 255 characters. */
  function StoredUa(header: string): (ua: string)
    ensures |ua| <= MaxUaLength && |ua| <= |header|
    ensures ua == header[..|ua|]
    ensures |header| <= MaxUaLength ==> ua == header
    ensures |ua| == if |header| <= MaxUaLength then |header| else MaxUaLength
  {
    Truncate(header, MaxUaLength)
  }

  /** Classifying the truncated User-Agent never flags a request the full header
      would not flag. */
  lemma BotOnTruncatedImpliesBot(header: string)
    ensures IsBotRequest(StoredUa(header)) ==> IsBotRequest(header)
  {
    var ua := StoredUa(header);
    if IsBotRequest(ua) {
      var k :| 0 <= k < |BotSignatures| && ContainsFolded(ua, BotSignatures[k]);
      ContainsFoldedPrefix(header, |ua|, BotSignatures[k]);
    }
  }

  /** The bot test sees only the first 255 characters: a signature that starts after
      them goes unnoticed. */
  lemma SignatureBeyondLimitMissed()
    ensures var header := Padding(MaxUaLength) + "Googlebot";
            IsBotRequest(header) && !IsBotRequest(StoredUa(header))
  {
    var pad := Padding(MaxUaLength);
    var header := pad + "Googlebot";
    assert StoredUa(header) == pad;
    assert header[MaxUaLength..] == "Googlebot";
    assert header[MaxUaLength + 6] == 'b' && header[MaxUaLength + 7] == 'o' && header[MaxUaLength + 8] == 't';
    assert BotSignatures[0] == "bot";
    assert MatchesFoldedAt(header, MaxUaLength + 6, BotSignatures[0]);
    assert ContainsFolded(header, BotSignatures[0]);
    forall k | 0 <= k < |BotSignatures|
      ensures !ContainsFolded(pad, BotSignatures[k])
    {
      var sig := BotSignatures[k];
      assert FoldChar(sig[0]) != '.' && sig[0] != '.';
      forall i | 0 <= i <= |pad| - |sig|
        ensures !MatchesFoldedAt(pad, i, sig)
      {
        assert FoldChar(pad[i]) == '.';
      }
    }
  }

  /** A string of `n` dots. */
  function Padding(n: nat): (s: string)
    ensures |s| == n && forall i :: 0 <= i < n ==> s[i] == '.'
  {
    if n == 0 then "" else Padding(n - 1) + "."
  }

  /** The error codes the two click endpoints answer with status 400. */
  datatype ValidationError =
    | EmptyPayload       // "empty_payload"
    | MissingGuideId     // "missing_guide_id"
    | GuideIdTooLong     // "guide_id_too_long"
    | InvalidGuideId     // "invalid_guide_id"
    | TitleTooLong       // "title_too_long"
    | HrefTooLong        // "href_too_long"
    | InvalidBackType    // "invalid_back_type"

  /** The outcome of `_validate_guide_data`: its `(error_msg, guide_id)` pair, or
      an `AttributeError` escaping it (`Raised`). */
  datatype Validated =
    | Accepted(guideId: string)
    | Rejected(error: ValidationError, guideId: string)
    | Raised

  /** The three fields as `_validate_guide_data` normalises them. */
  datatype Fields = Fields(guideId: string, title: string, href: string)

  /** `(data.get(k) or '').strip()` for the three keys, the id also lower-cased;
      `None` when one of them is a truthy non-string. */
  function NormalisedFields(fields: map<string, Value>): (r: Option<Fields>)
    ensures r.Some? ==> NoEdgeSpace(r.value.guideId)
  {
    var id := FieldOr(fields, "guide_id");
    var title := FieldOr(fields, "guide_title");
    var href := FieldOr(fields, "href");
    if id.NoStrMethod? || title.NoStrMethod? || href.NoStrMethod? then None
    else
      LowerKeepsNoEdgeSpace(Strip(id.text));
      Some(Fields(Lower(Strip(id.text)), Strip(title.text), Strip(href.text)))
  }

  /** `_validate_guide_data(data)`. */
  function ValidateGuideData(data: Value): (r: Validated)
    ensures r.Accepted? ==> IsSlug(r.guideId) && |r.guideId| <= MaxGuideIdLength
    ensures r.Rejected? ==> r.error != InvalidBackType
    ensures r.Rejected? && (r.error == TitleTooLong || r.error == HrefTooLong) ==>
              IsSlug(r.guideId) && |r.guideId| <= MaxGuideIdLength
    ensures r.Rejected? && r.error != TitleTooLong && r.error != HrefTooLong ==> r.guideId == ""
    ensures !Truthy(data) ==> r == Rejected(EmptyPayload, "")
    ensures Truthy(data) && !data.Object? ==> r == Raised
    ensures data.Object? && Truthy(data) && NormalisedFields(data.fields).None? ==> r == Raised
  {
    if !Truthy(data) then Rejected(EmptyPayload, "")
    else if !data.Object? then Raised
    else
      match NormalisedFields(data.fields)
      case None => Raised
      case Some(f) => CheckFields(f)
  }

  /** The checks `_validate_guide_data` runs on the normalised fields, in order. */
  function CheckFields(f: Fields): (r: Validated)
    requires NoEdgeSpace(f.guideId)
    ensures r.Accepted? ==> IsSlug(r.guideId) && |r.guideId| <= MaxGuideIdLength
    ensures !r.Raised? && (r.Rejected? ==> r.error != InvalidBackType)
    ensures r.Rejected? && (r.error == TitleTooLong || r.error == HrefTooLong) ==>
              IsSlug(r.guideId) && |r.guideId| <= MaxGuideIdLength
    ensures r.Rejected? && r.error != TitleTooLong && r.error != HrefTooLong ==> r.guideId == ""
  {
    SlugPatternOnStripped(f.guideId);
    if |f.guideId| == 0 then Rejected(MissingGuideId, "")
    else if |f.guideId| > MaxGuideIdLength then Rejected(GuideIdTooLong, "")
    else if !SlugPatternMatches(f.guideId) then Rejected(InvalidGuideId, "")
    else if |f.title| > MaxTitleLength then Rejected(TitleTooLong, f.guideId)
    else if |f.href| > MaxHrefLength then Rejected(HrefTooLong, f.guideId)
    else Accepted(f.guideId)
  }

  /** The payload is accepted exactly when it is a non-empty object whose three
      fields are strings (or absent) and whose normalised id is a slug of at most
      100 characters, title at most 200 and href at most 300; the accepted id is the
      stripped, lower-cased one. */
  lemma AcceptedIff(data: Value)
    ensures ValidateGuideData(data).Accepted? <==>
              && data.Object? && |data.fields| > 0
              && NormalisedFields(data.fields).Some?
              && var f := NormalisedFields(data.fields).value;
                 IsSlug(f.guideId) && |f.guideId| <= MaxGuideIdLength
                 && |f.title| <= MaxTitleLength && |f.href| <= MaxHrefLength
    ensures ValidateGuideData(data).Accepted? ==>
              ValidateGuideData(data).guideId == NormalisedFields(data.fields).value.guideId
  {
    if !data.Object? || |data.fields| == 0 {
      assert !Truthy(data) || !data.Object?;
    } else if NormalisedFields(data.fields).Some? {
      ErrorPrecedence(data);
    }
  }

  /** Errors are reported in a fixed order: each error implies that every check
      before it passed, so title and href lengths are only looked at once the id
      is a valid slug. */
  lemma ErrorPrecedence(data: Value)
    requires data.Object? && |data.fields| > 0 && NormalisedFields(data.fields).Some?
    ensures var f := NormalisedFields(data.fields).value;
            var r := ValidateGuideData(data);
            && (r.Rejected? ==> r.error != EmptyPayload)
            && (r == Rejected(MissingGuideId, "") <==> |f.guideId| == 0)
            && (r == Rejected(GuideIdTooLong, "") <==> |f.guideId| > MaxGuideIdLength)
            && (r == Rejected(InvalidGuideId, "") <==>
                  0 < |f.guideId| <= MaxGuideIdLength && !IsSlug(f.guideId))
  {
    var f := NormalisedFields(data.fields).value;
    assert ValidateGuideData(data) == CheckFields(f);
    IdErrorOrder(f);
  }

  lemma IdErrorOrder(f: Fields)
    requires NoEdgeSpace(f.guideId)
    ensures var r := CheckFields(f);
            && (r.Rejected? ==> r.error != EmptyPayload)
            && (r == Rejected(MissingGuideId, "") <==> |f.guideId| == 0)
            && (r == Rejected(GuideIdTooLong, "") <==> |f.guideId| > MaxGuideIdLength)
            && (r == Rejected(InvalidGuideId, "") <==>
                  0 < |f.guideId| <= MaxGuideIdLength && !IsSlug(f.guideId))
  {
    SlugPatternOnStripped(f.guideId);
  }

  /** The length checks come after the id checks, title before href. */
  lemma LengthErrorPrecedence(data: Value)
    requires data.Object? && |data.fields| > 0 && NormalisedFields(data.fields).Some?
    ensures var f := NormalisedFields(data.fields).value;
            var r := ValidateGuideData(data);
            && (r.Rejected? && r.error == TitleTooLong <==>
                  IsSlug(f.guideId) && |f.guideId| <= MaxGuideIdLength && |f.title| > MaxTitleLength)
            && (r.Rejected? && r.error == HrefTooLong <==>
                  IsSlug(f.guideId) && |f.guideId| <= MaxGuideIdLength
                  && |f.title| <= MaxTitleLength && |f.href| > MaxHrefLength)
  {
    var f := NormalisedFields(data.fields).value;
    assert ValidateGuideData(data) == CheckFields(f);
    LengthErrorOrder(f);
  }

  lemma LengthErrorOrder(f: Fields)
    requires NoEdgeSpace(f.guideId)
    ensures var r := CheckFields(f);
            && (r.Rejected? && r.error == TitleTooLong <==>
                  IsSlug(f.guideId) && |f.guideId| <= MaxGuideIdLength && |f.title| > MaxTitleLength)
            && (r.Rejected? && r.error == HrefTooLong <==>
                  IsSlug(f.guideId) && |f.guideId| <= MaxGuideIdLength
                  && |f.title| <= MaxTitleLength && |f.href| > MaxHrefLength)
  {
    SlugPatternOnStripped(f.guideId);
  }

  /** For an accepted payload, cutting title to 200 and href to 300 characters
      changes nothing: over-long values were already rejected. */
  lemma AcceptedNeedsNoTruncation(data: Value)
    requires ValidateGuideData(data).Accepted?
    ensures var f := NormalisedFields(data.fields).value;
            Truncate(f.title, MaxTitleLength) == f.title && Truncate(f.href, MaxHrefLength) == f.href
  {
  }

  /** The two back-link kinds `/analytics/guide-back-click` accepts. */
  const BackLinkIds: set<string> := {"back_context", "back_index"}

  /** The outcome of the back-link checks: the accepted, stripped row values; a
      rejection; or an `AttributeError` (`Raised`). */
  datatype BackLinkChecked =
    | BackAccepted(guideId: string, title: string, href: string)
    | BackRejected(error: ValidationError)
    | BackRaised

  /** All three back-link fields are absent, falsy or strings, so `.strip()` can be
      called on each; otherwise the first such call raises. */
  predicate BackFieldsReadable(fields: map<string, Value>) {
    && FieldOr(fields, "guide_id").Found?
    && FieldOr(fields, "guide_title").Found?
    && FieldOr(fields, "href").Found?
  }

  /** The payload checks of `guide_back_click`: the id is stripped but not
      lower-cased, and title and href are truncated, never rejected. A body that is
      not an object (JSON `null` included) has no `.get` and raises. */
  function ValidateBackLink(data: Value): (r: BackLinkChecked)
    ensures r.BackAccepted? ==> r.guideId in BackLinkIds
    ensures r.BackAccepted? ==> |r.title| <= MaxTitleLength && |r.href| <= MaxHrefLength
    ensures r.BackRejected? ==> r.error == InvalidGuideId || r.error == InvalidBackType
    ensures !data.Object? ==> r == BackRaised
    ensures data.Object? && !BackFieldsReadable(data.fields) ==> r == BackRaised
    ensures r.BackAccepted? ==>
              && data.Object?
              && FieldOr(data.fields, "guide_id").Found?
              && r.guideId == Strip(FieldOr(data.fields, "guide_id").text)
              && FieldOr(data.fields, "guide_title").Found?
              && r.title == Truncate(Strip(FieldOr(data.fields, "guide_title").text), MaxTitleLength)
              && FieldOr(data.fields, "href").Found?
              && r.href == Truncate(Strip(FieldOr(data.fields, "href").text), MaxHrefLength)
  {
    if !data.Object? then BackRaised
    else
      var id := FieldOr(data.fields, "guide_id");
      var title := FieldOr(data.fields, "guide_title");
      var href := FieldOr(data.fields, "href");
      if id.NoStrMethod? || title.NoStrMethod? || href.NoStrMethod? then BackRaised
      else
        var gid := Strip(id.text);
        if |gid| == 0 || |gid| > MaxGuideIdLength then BackRejected(InvalidGuideId)
        else if gid !in BackLinkIds then BackRejected(InvalidBackType)
        else BackAccepted(gid, Truncate(Strip(title.text), MaxTitleLength),
                          Truncate(Strip(href.text), MaxHrefLength))
  }

  /** Which back-link error an object payload with string fields gets: an empty or
      over-long stripped id is `invalid_guide_id`, any other id outside the two
      kinds is `invalid_back_type`, and the id is compared without lower-casing. */
  lemma BackLinkOutcome(fields: map<string, Value>, id: string)
    requires FieldOr(fields, "guide_id") == Found(id)
    requires !FieldOr(fields, "guide_title").NoStrMethod? && !FieldOr(fields, "href").NoStrMethod?
    ensures var r := ValidateBackLink(Object(fields));
            && (r == BackRejected(InvalidGuideId) <==> |Strip(id)| == 0 || |Strip(id)| > MaxGuideIdLength)
            && (r == BackRejected(InvalidBackType) <==>
                  0 < |Strip(id)| <= MaxGuideIdLength && Strip(id) !in BackLinkIds)
            && (r.BackAccepted? <==> Strip(id) in BackLinkIds)
            && (r.BackAccepted? ==> r.guideId == Strip(id))
  {
  }
}
