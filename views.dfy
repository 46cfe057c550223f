/**
 * The review submission view `post_review`: fill in the author from the
 * signed-in user, find the reviewed object, decode the category, build and
 * check the form, let pre-save receivers veto, save the review and then its
 * segments, and redirect with the review's id.
 *
 * The object lookup, the pre-save receivers, the validity of the segment
 * sub-forms and the segment objects the form produces are inputs; the
 * database is a `Store` value threaded through the saves.
 */
module Views {
  import opened Wrappers
  import opened Crypto
  import opened Models
  import opened Forms
  import opened ReviewTags

  /** The parts of the HTTP request the view reads. */
  datatype Request = Request(post: map<string, string>, user: Option<User>, remoteAddr: Option<string>)

  /**
   * The exceptions of the object lookup that become a bad request:
   * TypeError, AttributeError, ObjectDoesNotExist, ValueError or ValidationError.
   */
  datatype LookupError = InvalidContentType | UnresolvedModel | NoSuchObject | LookupFailed

  /** A found target object, with the app label and model name of its class. */
  datatype Found = Found(target: Target, appLabel: string, modelName: string)

  datatype BadRequestReason =
    | MissingTarget
    | BadTarget(error: LookupError)
    | SecurityFailed(errors: map<FormField, FieldError>)
    | Vetoed(receiver: nat)

  /** Exceptions that escape the view. */
  datatype Raised = KeyError | FormRaised(exc: FormException)

  datatype Response =
    | BadRequest(reason: BadRequestReason)
    | Preview(templates: seq<string>, errors: map<FormField, FieldError>, next: Option<string>)
    | Redirect(next: Option<string>, c: int)
    | Crash(exc: Raised)

  /**
   * What a pre-save receiver returns: `None`, a bool, an integer, a float or
   * decimal number, or any other object, recorded with the answer its
   * `__eq__` gives when compared with `False`.
   */
  datatype Reply = NoReply | Bool(b: bool) | Int(i: int) | Number(x: real) | Other(equalsFalse: bool)

  /**
   * `response == False`: true for `False`, and also for the numbers equal to
   * it (`0`, `0.0`, `Decimal(0)`) and for objects whose `__eq__` says so.
   */
  predicate Vetoes(r: Reply)
  {
    match r
    case NoReply => false
    case Bool(b) => !b
    case Int(i) => i == 0
    case Number(x) => x == 0.0
    case Other(equalsFalse) => equalsFalse
  }

  /** The signals the view sends. */
  datatype Event = WillBePosted | WasPosted(id: int)

  /**
   * The POST data after the fill-in: for a signed-in user an empty or
   * missing name becomes the full name (or the username when that is empty)
   * and an empty or missing e-mail becomes the user's e-mail.
   */
  function FilledData(post: map<string, string>, user: Option<User>): (data: map<string, string>)
    ensures user.None? ==> data == post
    ensures forall k :: k in post && k != "name" && k != "email" ==> k in data && data[k] == post[k]
    ensures forall k :: k in data ==> k in post || k == "name" || k == "email"
    ensures user.Some? ==> "name" in data && "email" in data
    ensures user.Some? && GetOrEmpty(post, "name") != "" ==> data["name"] == post["name"]
    ensures user.Some? && GetOrEmpty(post, "name") == "" ==>
      data["name"] == (if user.value.fullName != "" then user.value.fullName else user.value.username)
    ensures user.Some? && GetOrEmpty(post, "email") != "" ==> data["email"] == post["email"]
    ensures user.Some? && GetOrEmpty(post, "email") == "" ==> data["email"] == user.value.email
  {
    if user.None? then post
    else
      var u := user.value;
      var named := if GetOrEmpty(post, "name") == "" then
                     post["name" := if u.fullName != "" then u.fullName else u.username]
                   else post;
      if GetOrEmpty(named, "email") == "" then named["email" := u.email] else named
  }

  /** The fill-in leaves the target, category, honeypot, preview and next fields as posted. */
  lemma FilledDataKeepsOtherFields(post: map<string, string>, user: Option<User>)
    ensures var data := FilledData(post, user);
      && ("content_type" in data <==> "content_type" in post)
      && ("content_type" in post ==> data["content_type"] == post["content_type"])
      && ("object_pk" in data <==> "object_pk" in post)
      && ("object_pk" in post ==> data["object_pk"] == post["object_pk"])
      && ("category" in data <==> "category" in post)
      && ("category" in post ==> data["category"] == post["category"])
      && GetOrEmpty(data, "honeypot") == GetOrEmpty(post, "honeypot")
      && ("preview" in data <==> "preview" in post)
      && ("next" in data <==> "next" in post)
      && ("next" in post ==> data["next"] == post["next"])
  {
    var data := FilledData(post, user);
    assert "next" != "name" by { assert "next"[1] != "name"[1]; }
  }

  /** `data.get("next", next)`. */
  function NextTarget(data: map<string, string>, nextArg: Option<string>): Option<string>
  {
    if "next" in data then Some(data["next"]) else nextArg
  }

  /**
   * Saves each segment in order, bound to the review: the store after the
   * segment loop.
   */
  function SaveSegments(store: Store, reviewId: int, segments: seq<SegmentData>): (r: Store)
    ensures r.reviews == store.reviews && r.flags == store.flags && r.nextReviewId == store.nextReviewId
    decreases |segments|
  {
    if segments == [] then store
    else SaveSegments(SaveSegmentRow(store, segments[0].(review := Some(reviewId))).0, reviewId, segments[1..])
  }

  /**
   * Saving unsaved segments appends them in order, each with the next id and
   * bound to the review, and keeps the database consistent.
   */
  lemma {:induction false} SaveNewSegments(store: Store, reviewId: int, segments: seq<SegmentData>)
    requires StoreValid(store)
    requires forall k :: 0 <= k < |segments| ==> segments[k].id.None?
    ensures StoreValid(SaveSegments(store, reviewId, segments))
    ensures SaveSegments(store, reviewId, segments).nextSegmentId == store.nextSegmentId + |segments|
    ensures SaveSegments(store, reviewId, segments).segments == store.segments +
      seq(|segments|, k requires 0 <= k < |segments| =>
        segments[k].(id := Some(store.nextSegmentId + k), review := Some(reviewId)))
    decreases |segments|
  {
    if segments != [] {
      var head := segments[0].(review := Some(reviewId));
      var next := SaveSegmentRow(store, head).0;
      SaveSegmentRowValid(store, head);
      SaveNewSegments(next, reviewId, segments[1..]);
      var rest := seq(|segments| - 1, k requires 0 <= k < |segments| - 1 =>
        segments[1..][k].(id := Some(next.nextSegmentId + k), review := Some(reviewId)));
      var all := seq(|segments|, k requires 0 <= k < |segments| =>
        segments[k].(id := Some(store.nextSegmentId + k), review := Some(reviewId)));
      assert next.segments == store.segments + [all[0]];
      assert all == [all[0]] + rest;
    }
  }

  /** Saving segments, whatever their ids, keeps the database consistent. */
  lemma {:induction false} SaveSegmentsValid(store: Store, reviewId: int, segments: seq<SegmentData>)
    requires StoreValid(store)
    ensures StoreValid(SaveSegments(store, reviewId, segments))
    decreases |segments|
  {
    if segments != [] {
      var head := segments[0].(review := Some(reviewId));
      SaveSegmentRowValid(store, head);
      SaveSegmentsValid(SaveSegmentRow(store, head).0, reviewId, segments[1..]);
    }
  }


  /** How far a request gets through the gates before the review object is built. */
  /** The gate of `post_review` at which a request stops, or `Passes` when it gets through them all. */
  datatype Gate =
    | TargetMissing
    | TargetNotFound(error: LookupError)
    | CategoryMissing
    | CategoryForged
    | CleaningRaised(exc: FormException)
    | SecurityRejected
    | PreviewShown
    | Passes(found: Found, category: string)

  /**
   * The gates of `post_review` in the order the view applies them: the
   * target fields, the object lookup, the category token (missing, then
   * forged), then the cleaned form (an exception, security errors, field
   * errors or an invalid formset or a preview request).
   */
  function GateOf(req: Request, lookup: (string, string) -> Result<Found, LookupError>,
                  fs: FormSettings, c: Crypto, now: real, formsetValid: bool): Gate
  {
    if "content_type" !in req.post || "object_pk" !in req.post then TargetMissing
    else if lookup(req.post["content_type"], req.post["object_pk"]).Failure? then
      TargetNotFound(lookup(req.post["content_type"], req.post["object_pk"]).error)
    else if "category" !in req.post then CategoryMissing
    else if c.loads(req.post["category"]).None? then CategoryForged
    else
      var errors := FormErrors(fs, c, now, FilledData(req.post, req.user));
      if errors.Failure? then CleaningRaised(errors.error)
      else if errors.value.Keys * SecurityFields != {} then SecurityRejected
      else if errors.value != map[] || !formsetValid || "preview" in req.post then PreviewShown
      else Passes(lookup(req.post["content_type"], req.post["object_pk"]).value, c.loads(req.post["category"]).value)
  }

  /** A filled-in honeypot stops a request at the security gate at the latest: it is never previewed or posted. */
  lemma SpamNeverPasses(req: Request, lookup: (string, string) -> Result<Found, LookupError>,
                        fs: FormSettings, c: Crypto, now: real, formsetValid: bool)
    requires GetOrEmpty(req.post, "honeypot") != ""
    ensures var g := GateOf(req, lookup, fs, c, now, formsetValid);
      !g.Passes? && !g.PreviewShown?
  {
    var data := FilledData(req.post, req.user);
    var errors := FormErrors(fs, c, now, data);
    if errors.Success? {
      assert GetOrEmpty(data, "honeypot") != "" by { FilledDataKeepsOtherFields(req.post, req.user); }
      HoneypotAlwaysFlagged(fs, c, now, data);
      assert HoneypotField in errors.value.Keys * SecurityFields;
      SecurityErrorStops(req, lookup, fs, c, now, formsetValid);
    }
  }

  /** Security errors stop a request before the preview and the post. */
  lemma SecurityErrorStops(req: Request, lookup: (string, string) -> Result<Found, LookupError>,
                           fs: FormSettings, c: Crypto, now: real, formsetValid: bool)
    requires var errors := FormErrors(fs, c, now, FilledData(req.post, req.user));
      errors.Success? && errors.value.Keys * SecurityFields != {}
    ensures var g := GateOf(req, lookup, fs, c, now, formsetValid);
      !g.Passes? && !g.PreviewShown?
  {
    if "content_type" in req.post && "object_pk" in req.post
       && lookup(req.post["content_type"], req.post["object_pk"]).Success?
       && "category" in req.post && c.loads(req.post["category"]).Some?
    {
      assert GateOf(req, lookup, fs, c, now, formsetValid) == SecurityRejected;
    }
  }

  /** The response of a request stopped at gate `g`; no response stops at `Passes`. */
  predicate StoppedAt(g: Gate, resp: Response)
  {
    match g
    case TargetMissing => resp == BadRequest(MissingTarget)
    case TargetNotFound(e) => resp == BadRequest(BadTarget(e))
    case CategoryMissing => resp == Crash(KeyError)
    case CategoryForged => resp == Crash(FormRaised(BadSignature))
    case CleaningRaised(e) => resp == Crash(FormRaised(e))
    case SecurityRejected => resp.BadRequest? && resp.reason.SecurityFailed?
    case PreviewShown => resp.Preview?
    case Passes(_, _) => false
  }

  datatype Admission =
    | Admitted(data: map<string, string>, next: Option<string>, found: Found, category: string)
    | Stopped(resp: Response)

  /** The fill-in: the POST data copied and completed from a signed-in user. */
  method FillIn(post: map<string, string>, user: Option<User>) returns (data: map<string, string>)
    ensures data == FilledData(post, user)
  {
    data := post;
    if user.Some? {
      var u := user.value;
      if GetOrEmpty(data, "name") == "" {
        data := data["name" := if u.fullName != "" then u.fullName else u.username];
      }
      if GetOrEmpty(data, "email") == "" {
        data := data["email" := u.email];
      }
    }
  }

  /**
   * The form gates: an exception while cleaning escapes, security errors
   * give a bad request, then field errors, segment sub-form errors or a
   * preview request re-render the form.
   */
  method CheckForm(fs: FormSettings, c: Crypto, now: real, data: map<string, string>, formsetValid: bool,
                   next: Option<string>, found: Found, category: string)
    returns (a: Admission)
    ensures a.Stopped? ==> a.resp.Crash? || a.resp.Preview? || (a.resp.BadRequest? && a.resp.reason.SecurityFailed?)
    ensures a.Stopped? && a.resp.BadRequest? ==>
      FormErrors(fs, c, now, data).Success? &&
      a.resp.reason.errors.Keys == FormErrors(fs, c, now, data).value.Keys * SecurityFields != {}
    ensures a.Admitted? || (a.Stopped? && a.resp.Preview?) ==>
      && FormErrors(fs, c, now, data).Success?
      && FormErrors(fs, c, now, data).value.Keys * SecurityFields == {}
      && GetOrEmpty(data, "honeypot") == ""
    ensures a.Stopped? && a.resp.Preview? ==>
      && a.resp.errors == FormErrors(fs, c, now, data).value
      && (a.resp.errors != map[] || !formsetValid || "preview" in data)
      && a.resp.next == next
    ensures a.Admitted? ==>
      && a == Admitted(data, next, found, category)
      && FormErrors(fs, c, now, data) == Success(map[])
      && formsetValid && "preview" !in data
    // and conversely, each outcome of cleaning reaches its gate
    ensures FormErrors(fs, c, now, data).Failure? ==>
      a == Stopped(Crash(FormRaised(FormErrors(fs, c, now, data).error)))
    ensures var errors := FormErrors(fs, c, now, data);
      errors.Success? && errors.value.Keys * SecurityFields != {} ==>
      && a.Stopped? && a.resp.BadRequest? && a.resp.reason.SecurityFailed?
      && forall f :: f in a.resp.reason.errors ==> a.resp.reason.errors[f] == errors.value[f]
    ensures var errors := FormErrors(fs, c, now, data);
      errors.Success? && errors.value.Keys * SecurityFields == {} &&
      (errors.value != map[] || !formsetValid || "preview" in data) ==>
      a.Stopped? && a.resp.Preview?
    ensures FormErrors(fs, c, now, data) == Success(map[]) && formsetValid && "preview" !in data ==>
      a == Admitted(data, next, found, category)
  {
    var errors := FormErrors(fs, c, now, data);
    if errors.Failure? {
      return Stopped(Crash(FormRaised(errors.error)));
    }
    var securityErrors := SecurityErrors(errors.value);
    if GetOrEmpty(data, "honeypot") != "" {
      HoneypotAlwaysFlagged(fs, c, now, data);
    }
    if securityErrors != map[] {
      return Stopped(BadRequest(SecurityFailed(securityErrors)));
    }
    if errors.value != map[] || !formsetValid || "preview" in data {
      var templates := TemplateCandidates("preview", found.appLabel, found.modelName, category);
      return Stopped(Preview(templates, errors.value, next));
    }
    a := Admitted(data, next, found, category);
  }

  /**
   * The gates of `post_review`, in order: fill-in, `next`, the target
   * fields, the object lookup, the category token, then the form gates.
   */
  method Admit(req: Request, nextArg: Option<string>, lookup: (string, string) -> Result<Found, LookupError>,
               fs: FormSettings, c: Crypto, now: real, formsetValid: bool)
    returns (a: Admission)
    ensures "content_type" !in req.post || "object_pk" !in req.post ==> a == Stopped(BadRequest(MissingTarget))
    ensures a.Stopped? ==> !a.resp.Redirect? && !(a.resp.BadRequest? && a.resp.reason.Vetoed?)
    ensures a.Stopped? && a.resp.BadRequest? && a.resp.reason.SecurityFailed? ==>
      var errors := FormErrors(fs, c, now, FilledData(req.post, req.user));
      errors.Success? && a.resp.reason.errors.Keys == errors.value.Keys * SecurityFields != {}
    ensures a.Admitted? || (a.Stopped? && a.resp.Preview?) ==>
      && FormErrors(fs, c, now, FilledData(req.post, req.user)).Success?
      && FormErrors(fs, c, now, FilledData(req.post, req.user)).value.Keys * SecurityFields == {}
      && GetOrEmpty(req.post, "honeypot") == ""
    ensures a.Stopped? && a.resp.Preview? ==>
      && a.resp.errors == FormErrors(fs, c, now, FilledData(req.post, req.user)).value
      && (a.resp.errors != map[] || !formsetValid || "preview" in req.post)
      && a.resp.next == NextTarget(FilledData(req.post, req.user), nextArg)
    ensures a.Admitted? ==>
      && a.data == FilledData(req.post, req.user)
      && a.next == NextTarget(a.data, nextArg)
      && FormErrors(fs, c, now, a.data) == Success(map[])
      && formsetValid && "preview" !in req.post
      && "content_type" in a.data && "object_pk" in a.data
      && lookup(a.data["content_type"], a.data["object_pk"]) == Success(a.found)
      && "category" in a.data && c.loads(a.data["category"]) == Some(a.category)
    ensures a.Admitted? ==> GateOf(req, lookup, fs, c, now, formsetValid) == Passes(a.found, a.category)
    ensures GateOf(req, lookup, fs, c, now, formsetValid).Passes? ==> a.Admitted?
    ensures a.Stopped? ==> StoppedAt(GateOf(req, lookup, fs, c, now, formsetValid), a.resp)
  {
    var data := FillIn(req.post, req.user);
    FilledDataKeepsOtherFields(req.post, req.user);
    var next := NextTarget(data, nextArg);

    // Look up the reviewed object.
    if "content_type" !in data || "object_pk" !in data {
      return Stopped(BadRequest(MissingTarget));
    }
    var found := lookup(data["content_type"], data["object_pk"]);
    if found.Failure? {
      return Stopped(BadRequest(BadTarget(found.error)));
    }

    // Decode the category token, unguarded.
    if "category" !in data {
      return Stopped(Crash(KeyError));
    }
    var decoded := c.loads(data["category"]);
    if decoded.None? {
      return Stopped(Crash(FormRaised(BadSignature)));
    }

    a := CheckForm(fs, c, now, data, formsetValid, next, found.value, decoded.value);
  }

  /**
   * The veto loop: the first receiver whose reply is `== False`, if any.
   */
  method FirstVeto(receivers: seq<ReviewData -> Reply>, review: ReviewData) returns (v: Option<nat>)
    ensures v.Some? ==> v.value < |receivers| && Vetoes(receivers[v.value](review))
    ensures v.Some? ==> forall j :: 0 <= j < v.value ==> !Vetoes(receivers[j](review))
    ensures v.None? ==> forall j :: 0 <= j < |receivers| ==> !Vetoes(receivers[j](review))
  {
    for i := 0 to |receivers|
      invariant forall j :: 0 <= j < i ==> !Vetoes(receivers[j](review))
    {
      if Vetoes(receivers[i](review)) {
        return Some(i);
      }
    }
    return None;
  }

  /** The segment loop: binds each segment to the review and saves it, in order. */
  method SaveSegmentsInOrder(store: Store, reviewId: int, segments: seq<SegmentData>) returns (store': Store)
    ensures store' == SaveSegments(store, reviewId, segments)
  {
    store' := store;
    for i := 0 to |segments|
      invariant SaveSegments(store', reviewId, segments[i..]) == SaveSegments(store, reviewId, segments)
    {
      assert segments[i..][1..] == segments[i + 1..];
      store' := SaveSegmentRow(store', segments[i].(review := Some(reviewId))).0;
    }
    assert segments[|segments|..] == [];
  }

  /** The cleaned name, e-mail and text of the submitted data, with the decoded category. */
  function Cleaned(data: map<string, string>, category: string): CleanedData
  {
    CleanedData(GetOrEmpty(data, "name"), GetOrEmpty(data, "email"), GetOrEmpty(data, "text"), category)
  }

  /**
   * The review handed to the receivers: the form's review object (the new
   * review, or the stored same-day duplicate it repeats) with the client
   * address and, for a signed-in user, the user; or the exception raised
   * while building it.
   */
  function PostedReview(req: Request, target: Target, data: map<string, string>, category: string,
                        today: DateTime, siteId: int, categories: seq<Category>, rows: seq<ReviewData>)
    : (r: Result<ReviewData, FormException>)
    requires AllDated(rows)
    ensures r.Failure? <==> CategoryByCode(categories, category).Failure?
    ensures r.Failure? ==> r.error == CategoryByCode(categories, category).error
    ensures r.Success? ==> r.value.ipAddress == req.remoteAddr && r.value.submitDate.Some?
    ensures r.Success? && req.user.Some? ==> r.value.user == req.user
    ensures r.Success? ==>
      var created := ReviewCreateData(target, Cleaned(data, category), categories, today, siteId).value;
      var base := if DuplicateOf(rows, created).Some? then DuplicateOf(rows, created).value else created;
      r.value.(ipAddress := base.ipAddress, user := base.user) == base
  {
    match ReviewCreateData(target, Cleaned(data, category), categories, today, siteId)
    case Failure(e) => Failure(e)
    case Success(created) =>
      var obj := match DuplicateOf(rows, created) case Some(d) => d case None => created;
      Success(obj.(ipAddress := req.remoteAddr, user := if req.user.Some? then req.user else obj.user))
  }

  /**
   * Posting a review that repeats a stored one from the same day posts the
   * stored review again: it keeps its id, so saving it updates that row and
   * adds none.
   */
  lemma RepostUpdatesStoredReview(req: Request, target: Target, data: map<string, string>, category: string,
                                  today: DateTime, siteId: int, categories: seq<Category>, store: Store, k: nat)
    requires StoreValid(store)
    requires PostedReview(req, target, data, category, today, siteId, categories, store.reviews).Success?
    requires var created := ReviewCreateData(target, Cleaned(data, category), categories, today, siteId).value;
      k < |store.reviews| && IsDuplicate(store.reviews[k], created)
    ensures var posted := PostedReview(req, target, data, category, today, siteId, categories, store.reviews).value;
      && posted.id.Some? && HasId(store.reviews, ReviewId, posted.id)
      && |SaveReviewRow(store, posted, today).0.reviews| == |store.reviews|
      && SaveReviewRow(store, posted, today).0.nextReviewId == store.nextReviewId
  {
    var created := ReviewCreateData(target, Cleaned(data, category), categories, today, siteId).value;
    DuplicateResolvesToStoredRow(store, created, k);
    var d := DuplicateOf(store.reviews, created).value;
    var i :| 0 <= i < |store.reviews| && store.reviews[i] == d;
    var posted := PostedReview(req, target, data, category, today, siteId, categories, store.reviews).value;
    assert posted.id == store.reviews[i].id;
    assert ReviewId(store.reviews[i]) == posted.id;
  }

  /**
   * The review object of an admitted submission (`form.get_review_object()`),
   * stamped with the client address and, for a logged-in user, the user.
   * `null` with the exception the form raised when there is none.
   */
  method BuildReview(req: Request, a: Admission, today: DateTime, siteId: int, categories: seq<Category>,
                     rows: seq<ReviewData>)
    returns (review: Review?, exc: FormException)
    requires a.Admitted? && AllDated(rows)
    ensures var p := PostedReview(req, a.found.target, a.data, a.category, today, siteId, categories, rows);
      && (review == null <==> p.Failure?)
      && (review == null ==> exc == p.error)
      && (review != null ==> fresh(review) && review.Row() == p.value)
  {
    var cleaned := Cleaned(a.data, a.category);
    var obj := GetReviewObject(true, a.found.target, cleaned, categories, today, siteId, rows);
    if obj.Failure? {
      return null, obj.error;
    }
    assert obj.value.submitDate.Some? by {
      var created := ReviewCreateData(a.found.target, cleaned, categories, today, siteId);
      if DuplicateOf(rows, created.value).Some? {
        assert obj.value in rows;
      }
    }
    review := new Review.FromRow(obj.value);
    review.ipAddress := req.remoteAddr;
    if req.user.Some? {
      review.user := req.user;
    }
    exc := ValueError;
  }

  /**
   * The database after a successful post: the review saved first under the
   * id `rid`, then its segments bound to that id in order; the saved review
   * is stored and the database is consistent.
   */
  ghost predicate SavedAsPosted(store: Store, review: ReviewData, today: DateTime, segments: seq<SegmentData>,
                                rid: int, store': Store)
  {
    var saved := SaveReviewRow(store, review, today);
    && rid == saved.1.id.value
    && store' == SaveSegments(saved.0, rid, segments)
    && saved.1 in store'.reviews
    && StoreValid(store')
  }

  /**
   * As written, building the review object of an admitted submission never
   * succeeds: `views.py:111` raises TypeError exactly where the corrected
   * view hands a review to the receivers, and the category's own error
   * otherwise. So the code as written never saves a review.
   */
  lemma PostReviewAsWrittenNeverPosts(req: Request, a: Admission, today: DateTime, siteId: int,
                                      categories: seq<Category>, rows: seq<ReviewData>)
    requires a.Admitted? && AllDated(rows)
    ensures var asWritten := GetReviewObjectAsWritten(true, a.found.target, Cleaned(a.data, a.category), categories, today, siteId);
      var p := PostedReview(req, a.found.target, a.data, a.category, today, siteId, categories, rows);
      && asWritten.Failure?
      && (p.Success? <==> asWritten.error == TypeError)
      && (p.Failure? ==> asWritten.error == p.error)
  {
    var cleaned := Cleaned(a.data, a.category);
    if CategoryByCode(categories, a.category).Success? {
      ReviewObjectAsWrittenRaises(a.found.target, cleaned, categories, today, siteId);
    }
  }

  /**
   * The part of `post_review` after the gates: build the review object (or
   * find the duplicate it repeats), bind the address and the signed-in user,
   * let the receivers veto, save the review, then its segments in order,
   * send the post-save signal and redirect with the review's id.
   */
  method Commit(req: Request, a: Admission, today: DateTime, siteId: int, categories: seq<Category>,
                segments: seq<SegmentData>, receivers: seq<ReviewData -> Reply>, store: Store)
    returns (resp: Response, store': Store, events: seq<Event>, posted: Option<ReviewData>)
    requires a.Admitted? && StoreValid(store)
    ensures !resp.Redirect? ==> store' == store
    ensures !resp.Redirect? && !(resp.BadRequest? && resp.reason.Vetoed?) ==>
      resp.Crash? && events == [] && posted.None?
    ensures resp.Redirect? ==> resp.next == a.next
    ensures var p := PostedReview(req, a.found.target, a.data, a.category, today, siteId, categories, store.reviews);
      && (resp.Crash? <==> p.Failure?)
      && (resp.Crash? ==> resp.exc == FormRaised(p.error))
      && (posted.Some? ==> p.Success? && posted.value == p.value)
    ensures resp.BadRequest? ==> resp.reason.Vetoed?
    ensures resp.BadRequest? && resp.reason.Vetoed? ==>
      && posted.Some? && events == [WillBePosted]
      && resp.reason.receiver < |receivers| && Vetoes(receivers[resp.reason.receiver](posted.value))
      && forall j :: 0 <= j < resp.reason.receiver ==> !Vetoes(receivers[j](posted.value))
    ensures resp.Redirect? ==>
      && posted.Some? && (forall j :: 0 <= j < |receivers| ==> !Vetoes(receivers[j](posted.value)))
      && SavedAsPosted(store, posted.value, today, segments, resp.c, store')
      && events == [WillBePosted, WasPosted(resp.c)]
  {
    store', events, posted := store, [], None;
    var review, exc := BuildReview(req, a, today, siteId, categories, store.reviews);
    if review == null {
      return Crash(FormRaised(exc)), store', events, posted;
    }
    posted := Some(review.Row());

    // Ask the pre-save receivers.
    events := [WillBePosted];
    var veto := FirstVeto(receivers, posted.value);
    if veto.Some? {
      return BadRequest(Vetoed(veto.value)), store', events, posted;
    }

    // Save the review, then its segments.
    var afterReview := review.Save(store, today);
    var rid := review.id.value;
    SaveReviewRowValid(store, posted.value, today);
    SaveSegmentsValid(afterReview, rid, segments);
    store' := SaveSegmentsInOrder(afterReview, rid, segments);

    events := events + [WasPosted(rid)];
    resp := Redirect(a.next, rid);
  }

  /**
   * How the gates shape the response of `post_review`: the gate a request
   * stops at decides the response, and a security rejection, a preview or a
   * redirect agrees with the cleaned form.
   */
  predicate RespondsPerGates(req: Request, nextArg: Option<string>, lookup: (string, string) -> Result<Found, LookupError>,
                             fs: FormSettings, c: Crypto, now: real, formsetValid: bool, resp: Response)
  {
    var data := FilledData(req.post, req.user);
    var errors := FormErrors(fs, c, now, data);
    var g := GateOf(req, lookup, fs, c, now, formsetValid);
    && (!g.Passes? ==> StoppedAt(g, resp))
    && (resp.BadRequest? && resp.reason.SecurityFailed? ==>
          errors.Success? && resp.reason.errors.Keys == errors.value.Keys * SecurityFields != {})
    && (resp.Preview? || resp.Redirect? ==>
          errors.Success? && errors.value.Keys * SecurityFields == {} && GetOrEmpty(req.post, "honeypot") == "")
    && (resp.Preview? ==>
          && errors.Success? && resp.errors == errors.value
          && (resp.errors != map[] || !formsetValid || "preview" in req.post)
          && resp.next == NextTarget(data, nextArg))
    && (resp.Redirect? ==>
          && errors == Success(map[]) && formsetValid && "preview" !in req.post
          && resp.next == NextTarget(data, nextArg))
  }

  /**
   * The response once the gates are passed, given the review object `p`:
   * its exception escapes, a vetoing receiver gives a bad request, and
   * otherwise the review is posted and the view redirects.
   */
  predicate RespondsPerReceivers(p: Result<ReviewData, FormException>, receivers: seq<ReviewData -> Reply>, resp: Response)
  {
    && (p.Failure? ==> resp == Crash(FormRaised(p.error)))
    && (p.Success? && (forall j :: 0 <= j < |receivers| ==> !Vetoes(receivers[j](p.value))) ==> resp.Redirect?)
    && (p.Success? && (exists j :: 0 <= j < |receivers| && Vetoes(receivers[j](p.value))) ==>
          resp.BadRequest? && resp.reason.Vetoed?)
  }

  /**
   * `post_review`. `lookup` resolves a content type and key to the target
   * object; `receivers` are the pre-save signal receivers; `formsetValid`
   * and `segments` stand for the segment sub-forms' validity and the segment
   * objects they produce; `now` is `time.time()` and `today` is
   * `datetime.now()`. Returns the response, the database afterwards, the
   * signals sent, and the review as handed to the receivers (when reached).
   */
  method PostReview(req: Request, nextArg: Option<string>, lookup: (string, string) -> Result<Found, LookupError>,
                    fs: FormSettings, c: Crypto, now: real, today: DateTime, siteId: int,
                    categories: seq<Category>, formsetValid: bool, segments: seq<SegmentData>,
                    receivers: seq<ReviewData -> Reply>, store: Store)
    returns (resp: Response, store': Store, events: seq<Event>, posted: Option<ReviewData>)
    requires StoreValid(store)
    // the gates, in order
    ensures "content_type" !in req.post || "object_pk" !in req.post ==>
      resp == BadRequest(MissingTarget) && events == [] && posted.None?
    ensures RespondsPerGates(req, nextArg, lookup, fs, c, now, formsetValid, resp)
    // nothing is written unless the review is posted
    ensures !resp.Redirect? ==> store' == store
    ensures !resp.Redirect? && !(resp.BadRequest? && resp.reason.Vetoed?) ==> events == [] && posted.None?
    // the review handed to the receivers
    ensures posted.Some? ==>
      var data := FilledData(req.post, req.user);
      && "content_type" in data && "object_pk" in data && "category" in data
      && lookup(data["content_type"], data["object_pk"]).Success?
      && c.loads(data["category"]).Some?
      && PostedReview(req, lookup(data["content_type"], data["object_pk"]).value.target, data,
                      c.loads(data["category"]).value, today, siteId, categories, store.reviews) == Success(posted.value)
    ensures posted.Some? ==> posted.value.ipAddress == req.remoteAddr
    ensures posted.Some? && req.user.Some? ==> posted.value.user == req.user
    ensures posted.Some? ==> posted.value.submitDate.Some?
    // the veto
    ensures resp.BadRequest? && resp.reason.Vetoed? ==>
      && posted.Some? && events == [WillBePosted]
      && resp.reason.receiver < |receivers| && Vetoes(receivers[resp.reason.receiver](posted.value))
      && forall j :: 0 <= j < resp.reason.receiver ==> !Vetoes(receivers[j](posted.value))
    // the successful post: review first, then its segments in order, then the signal
    ensures resp.Redirect? ==>
      && posted.Some? && (forall j :: 0 <= j < |receivers| ==> !Vetoes(receivers[j](posted.value)))
      && SavedAsPosted(store, posted.value, today, segments, resp.c, store')
      && events == [WillBePosted, WasPosted(resp.c)]
    // and conversely, a request through the gates is posted unless building it raises or a receiver vetoes
    ensures GateOf(req, lookup, fs, c, now, formsetValid).Passes? ==>
      var g := GateOf(req, lookup, fs, c, now, formsetValid);
      RespondsPerReceivers(PostedReview(req, g.found.target, FilledData(req.post, req.user), g.category,
                                        today, siteId, categories, store.reviews), receivers, resp)
  {
    var a := Admit(req, nextArg, lookup, fs, c, now, formsetValid);
    if a.Stopped? {
      return a.resp, store, [], None;
    }
    resp, store', events, posted := Commit(req, a, today, siteId, categories, segments, receivers, store);
  }
}
