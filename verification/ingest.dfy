/**
 The two ingestion views, `POST /analytics/guide-click` and
 `POST /analytics/guide-back-click`, over the raw click log. Each checks, in
 order, the content type, the User-Agent, the JSON body and the payload, and only
 when all pass appends exactly one row stamped with the server's clock.
 */
module Ingest {
  import opened Common
  import opened Json
  import opened Text
  import opened Validation
  import opened Store

  /** What reaches a click view: `request.is_json`, the User-Agent header (`''`
      when absent), and the body as `get_json(force=True)` decodes it, `None` when
      it does not decode. */
  datatype Request = Request(isJson: bool, userAgent: string, body: Option<Value>)

  datatype Failure =
    | InvalidContentType       // "invalid_content_type"
    | BotFiltered              // "bot_filtered"
    /** A body that does not decode. `get_json(force=True)` then raises werkzeug's
        `BadRequest`, which the view's `except (ValueError, TypeError)` does not
        catch, so the client gets Flask's own 400 page and never the view's
        `invalid_json` reply. */
    | UndecodableBody
    | Invalid(error: ValidationError)
    | DatabaseError            // the insert or its commit raised: {"ok": false}
    | Uncaught                 // an exception escaped the view

  function StatusOf(f: Failure): nat {
    match f
    case BotFiltered => 429
    case DatabaseError => 500
    case Uncaught => 500
    case _ => 400
  }

  datatype Response = Ok | Fail(failure: Failure, status: nat)

  function Refuse(f: Failure): Response {
    Fail(f, StatusOf(f))
  }

  /** A view's response together with the click log after it. */
  datatype Handled = Handled(response: Response, raw: seq<Click>)

  /** The row `guide_click` inserts for an accepted payload: the normalised id,
      title and href cut to their limits, the truncated User-Agent, and the
      server's `now`; nothing the client sends supplies the time. */
  function ClickRow(f: Fields, ua: string, now: int): (c: Click)
    ensures |c.title| <= MaxTitleLength && |c.href| <= MaxHrefLength && c.ts == now
  {
    Click(f.guideId, Truncate(f.title, MaxTitleLength), Truncate(f.href, MaxHrefLength), ua, now)
  }

  /** The checks both views run before looking at the payload, in the order the
      views run them: the content type, then the User-Agent, then the body. */
  function Precheck(req: Request): (r: Option<Failure>)
    ensures r.None? <==> req.isJson && !IsBotRequest(StoredUa(req.userAgent)) && req.body.Some?
    ensures r == Some(BotFiltered) ==> req.isJson
    ensures r == Some(UndecodableBody) ==> req.isJson && !IsBotRequest(StoredUa(req.userAgent))
    ensures r.Some? ==> r.value in {InvalidContentType, BotFiltered, UndecodableBody}
  {
    if !req.isJson then Some(InvalidContentType)
    else if IsBotRequest(StoredUa(req.userAgent)) then Some(BotFiltered)
    else if req.body.None? then Some(UndecodableBody)
    else None
  }

  /** The response once the prechecks pass, from the validation outcome. */
  function Verdict(v: Validated, insertFails: bool): Response {
    match v
    case Raised => Refuse(Uncaught)
    case Rejected(e, _) => Refuse(Invalid(e))
    case Accepted(_) => if insertFails then Refuse(DatabaseError) else Ok
  }

  lemma VerdictCases(v: Validated, insertFails: bool)
    ensures v.Rejected? ==> Verdict(v, insertFails) == Fail(Invalid(v.error), 400)
    ensures v.Raised? ==> Verdict(v, insertFails) == Fail(Uncaught, 500)
    ensures v.Accepted? ==> Verdict(v, insertFails) == if insertFails then Fail(DatabaseError, 500) else Ok
  {
  }

  /** `guide_click()`; `insertFails` stands for the database raising during the
      insert or its commit, which leaves the log unchanged. */
  function GuideClick(req: Request, raw: seq<Click>, now: int, insertFails: bool): (h: Handled)
    ensures h.response.Fail? ==> h.raw == raw && h.response.status == StatusOf(h.response.failure)
    ensures Precheck(req).Some? ==> h.response == Refuse(Precheck(req).value)
    ensures Precheck(req).None? ==> h.response == Verdict(ValidateGuideData(req.body.value), insertFails)
    ensures h.response.Ok? <==>
              && req.isJson && !IsBotRequest(StoredUa(req.userAgent)) && req.body.Some?
              && ValidateGuideData(req.body.value).Accepted? && !insertFails
    ensures h.response.Ok? ==>
              && req.body.value.Object?
              && NormalisedFields(req.body.value.fields).Some?
              && var f := NormalisedFields(req.body.value.fields).value;
                 h.raw == raw + [Click(f.guideId, f.title, f.href, StoredUa(req.userAgent), now)]
  {
    match Precheck(req)
    case Some(failure) => Handled(Refuse(failure), raw)
    case None =>
      var data := req.body.value;
      match ValidateGuideData(data)
      case Raised => Handled(Refuse(Uncaught), raw)
      case Rejected(e, _) => Handled(Refuse(Invalid(e)), raw)
      case Accepted(id) =>
        AcceptedIff(data);
        AcceptedNeedsNoTruncation(data);
        var f := NormalisedFields(data.fields).value;
        if insertFails then Handled(Refuse(DatabaseError), raw)
        else Handled(Ok, raw + [ClickRow(f, StoredUa(req.userAgent), now)])
  }

  /** The order of the checks: a non-JSON content type wins over everything, a bot
      User-Agent over any body (a bot with a malformed payload gets 429, not 400),
      an undecodable body over validation, and validation over the insert. */
  lemma GuideClickCheckOrder(req: Request, raw: seq<Click>, now: int, insertFails: bool)
    ensures !req.isJson ==>
              GuideClick(req, raw, now, insertFails).response == Fail(InvalidContentType, 400)
    ensures req.isJson && IsBotRequest(StoredUa(req.userAgent)) ==>
              GuideClick(req, raw, now, insertFails).response == Fail(BotFiltered, 429)
    ensures req.isJson && !IsBotRequest(StoredUa(req.userAgent)) && req.body.None? ==>
              GuideClick(req, raw, now, insertFails).response == Fail(UndecodableBody, 400)
  {
  }

  /** Once the prechecks pass, the validation outcome decides the response, and
      the insert is only attempted for an accepted payload. */
  lemma GuideClickValidationOrder(req: Request, raw: seq<Click>, now: int, insertFails: bool)
    ensures Precheck(req).None? && ValidateGuideData(req.body.value).Rejected? ==>
              GuideClick(req, raw, now, insertFails).response
                == Fail(Invalid(ValidateGuideData(req.body.value).error), 400)
    ensures Precheck(req).None? && ValidateGuideData(req.body.value).Raised? ==>
              GuideClick(req, raw, now, insertFails).response == Fail(Uncaught, 500)
    ensures Precheck(req).None? && ValidateGuideData(req.body.value).Accepted? ==>
              GuideClick(req, raw, now, insertFails).response == (if insertFails then Fail(DatabaseError, 500) else Ok)
  {
    if Precheck(req).None? {
      var v := ValidateGuideData(req.body.value);
      assert GuideClick(req, raw, now, insertFails).response == Verdict(v, insertFails);
      VerdictCases(v, insertFails);
    }
  }

  /** The back-link response once the prechecks pass. */
  function BackVerdict(v: BackLinkChecked, insertFails: bool): Response {
    match v
    case BackRaised => Refuse(Uncaught)
    case BackRejected(e) => Refuse(Invalid(e))
    case BackAccepted(_, _, _) => if insertFails then Refuse(DatabaseError) else Ok
  }

  lemma BackVerdictCases(v: BackLinkChecked, insertFails: bool)
    ensures v.BackRejected? ==> BackVerdict(v, insertFails) == Fail(Invalid(v.error), 400)
    ensures v.BackRaised? ==> BackVerdict(v, insertFails) == Fail(Uncaught, 500)
    ensures v.BackAccepted? ==>
              BackVerdict(v, insertFails) == if insertFails then Fail(DatabaseError, 500) else Ok
  {
  }

  /** `guide_back_click()`: the same first three checks, then the back-link rules;
      the accepted row carries the stripped back-link kind. */
  function GuideBackClick(req: Request, raw: seq<Click>, now: int, insertFails: bool): (h: Handled)
    ensures h.response.Fail? ==> h.raw == raw && h.response.status == StatusOf(h.response.failure)
    ensures h.response.Ok? <==>
              && Precheck(req).None? && ValidateBackLink(req.body.value).BackAccepted? && !insertFails
    ensures h.response.Ok? ==>
              |h.raw| == |raw| + 1 && h.raw[..|raw|] == raw
              && h.raw[|raw|].guideId in BackLinkIds && h.raw[|raw|].ts == now
              && h.raw[|raw|].ua == StoredUa(req.userAgent)
    ensures h.response.Ok? ==>
              && req.body.Some?
              && var v := ValidateBackLink(req.body.value);
              && v.BackAccepted?
              && h.raw == raw + [Click(v.guideId, v.title, v.href, StoredUa(req.userAgent), now)]
    ensures Precheck(req).Some? ==> h.response == Refuse(Precheck(req).value)
    ensures Precheck(req).None? ==> h.response == BackVerdict(ValidateBackLink(req.body.value), insertFails)
  {
    match Precheck(req)
    case Some(failure) => Handled(Refuse(failure), raw)
    case None =>
      match ValidateBackLink(req.body.value)
      case BackRaised => Handled(Refuse(Uncaught), raw)
      case BackRejected(e) => Handled(Refuse(Invalid(e)), raw)
      case BackAccepted(id, title, href) =>
        if insertFails then Handled(Refuse(DatabaseError), raw)
        else
          var row := Click(id, title, href, StoredUa(req.userAgent), now);
          assert (raw + [row])[..|raw|] == raw;
          Handled(Ok, raw + [row])
  }

  /** Once the prechecks pass, the back-link rules decide the response: a rejected
      kind or id is a 400 carrying its error, a body that makes Python raise is the
      uncaught 500, and only an accepted link reaches the insert. */
  lemma GuideBackClickValidationOrder(req: Request, raw: seq<Click>, now: int, insertFails: bool)
    ensures Precheck(req).Some? ==>
              GuideBackClick(req, raw, now, insertFails).response == Refuse(Precheck(req).value)
    ensures Precheck(req).None? && ValidateBackLink(req.body.value).BackRejected? ==>
              GuideBackClick(req, raw, now, insertFails).response
                == Fail(Invalid(ValidateBackLink(req.body.value).error), 400)
    ensures Precheck(req).None? && ValidateBackLink(req.body.value).BackRaised? ==>
              GuideBackClick(req, raw, now, insertFails).response == Fail(Uncaught, 500)
    ensures Precheck(req).None? && ValidateBackLink(req.body.value).BackAccepted? ==>
              GuideBackClick(req, raw, now, insertFails).response
                == (if insertFails then Fail(DatabaseError, 500) else Ok)
  {
    var r := GuideBackClick(req, raw, now, insertFails).response;
    if Precheck(req).None? {
      var v := ValidateBackLink(req.body.value);
      assert r == BackVerdict(v, insertFails);
      BackVerdictCases(v, insertFails);
    }
  }

  /** The back-link view shares the first three checks with `guide_click`, so a bot
      is filtered before its body is read on both routes. */
  lemma BackClickSharesPrecheck(req: Request, raw: seq<Click>, now: int, insertFails: bool)
    requires Precheck(req).Some?
    ensures GuideBackClick(req, raw, now, insertFails).response ==
            GuideClick(req, raw, now, insertFails).response
    ensures GuideBackClick(req, raw, now, insertFails).response == Refuse(Precheck(req).value)
  {
  }
}
