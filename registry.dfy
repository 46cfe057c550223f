/**
 * The pluggable-backend registry: the REVIEWS_APP setting names an installed
 * package that may replace the review model, the segment model, the forms,
 * the form target and the moderation URLs. Every resolver uses the package's
 * hook when a non-default app is configured and the hook exists, and the
 * built-in default otherwise.
 */
module Registry {
  import opened Wrappers
  import opened Models

  /** DEFAULT_REVIEWS_APP. */
  const DefaultReviewsApp := "reviews"

  /** The settings the registry reads: REVIEWS_APP (possibly unset) and INSTALLED_APPS. */
  datatype Settings = Settings(reviewsApp: Option<string>, installedApps: seq<string>)

  /**
   * The hooks a custom backend package may define. A hook that returns a
   * class is represented by the class's dotted name; a URL hook by the
   * function it computes.
   */
  datatype Backend = Backend(
    getModel: Option<string>,
    getSegmentModel: Option<string>,
    getForm: Option<string>,
    getSegmentForm: Option<string>,
    getFormTarget: Option<string>,
    getFlagUrl: Option<ReviewData -> string>,
    getDeleteUrl: Option<ReviewData -> string>,
    getApproveUrl: Option<ReviewData -> string>)

  /**
   * Errors of resolution: the configured app is not installed or cannot be
   * imported (both ImproperlyConfigured); the default app is not installed
   * while REVIEWS_APP is unset, so building the ImproperlyConfigured message
   * from `settings.REVIEWS_APP` raises AttributeError; or a default refers to
   * a name the module never imported (NameError).
   */
  datatype ConfigError = NotInstalled | NoSuchPackage | AttributeError | NameError

  /** The built-in classes, by dotted name. */
  const ReviewModel := "reviews.models.Review"
  const ReviewSegmentModel := "reviews.models.ReviewSegment"
  const ReviewFormClass := "reviews.forms.ReviewForm"
  const ReviewSegmentFormClass := "reviews.forms.ReviewSegmentForm"

  /** `get_review_app_name`: the REVIEWS_APP setting, or the default. */
  function ReviewAppName(s: Settings): (name: string)
    ensures s.reviewsApp.None? ==> name == DefaultReviewsApp
    ensures s.reviewsApp.Some? ==> name == s.reviewsApp.value
  {
    if s.reviewsApp.Some? then s.reviewsApp.value else DefaultReviewsApp
  }

  /**
   * `get_review_app`: the configured package, provided it is installed and
   * importable. `packages` maps importable package names to their hooks.
   * The message for an app missing from INSTALLED_APPS reads the
   * REVIEWS_APP setting itself, which fails when the setting is unset.
   */
  function ReviewApp(s: Settings, packages: map<string, Backend>): (r: Result<Backend, ConfigError>)
    ensures r.Success? <==> ReviewAppName(s) in s.installedApps && ReviewAppName(s) in packages
    ensures r.Success? ==> r.value == packages[ReviewAppName(s)]
    ensures r == Failure(NotInstalled) <==> s.reviewsApp.Some? && s.reviewsApp.value !in s.installedApps
    ensures r == Failure(AttributeError) <==> s.reviewsApp.None? && DefaultReviewsApp !in s.installedApps
    ensures r == Failure(NoSuchPackage) <==> ReviewAppName(s) in s.installedApps && ReviewAppName(s) !in packages
  {
    var name := ReviewAppName(s);
    if name !in s.installedApps then (if s.reviewsApp.Some? then Failure(NotInstalled) else Failure(AttributeError))
    else if name !in packages then Failure(NoSuchPackage)
    else Success(packages[name])
  }

  /**
   * The rule every resolver follows: with the default app name the default
   * is used and no package is loaded; otherwise the package is loaded (its
   * errors propagate, because the package is fetched before `hasattr` looks
   * at it), and its hook is used when it defines one.
   */
  function Resolve<T>(s: Settings, packages: map<string, Backend>, hook: Backend -> Option<T>,
                      default: Result<T, ConfigError>): (r: Result<T, ConfigError>)
    ensures ReviewAppName(s) == DefaultReviewsApp ==> r == default
    ensures ReviewAppName(s) != DefaultReviewsApp && ReviewApp(s, packages).Failure? ==>
      r == Failure(ReviewApp(s, packages).error)
    ensures ReviewAppName(s) != DefaultReviewsApp && ReviewApp(s, packages).Success? ==>
      r == (match hook(ReviewApp(s, packages).value) case Some(v) => Success(v) case None => default)
  {
    if ReviewAppName(s) == DefaultReviewsApp then default
    else
      match ReviewApp(s, packages)
      case Failure(e) => Failure(e)
      case Success(b) =>
        match hook(b)
        case Some(v) => Success(v)
        case None => default
  }

  /** `get_model`. */
  function GetModel(s: Settings, packages: map<string, Backend>): Result<string, ConfigError>
  {
    Resolve(s, packages, (b: Backend) => b.getModel, Success(ReviewModel))
  }

  /** `get_segment_model`, with the default the function evidently means. */
  function GetSegmentModel(s: Settings, packages: map<string, Backend>): Result<string, ConfigError>
  {
    Resolve(s, packages, (b: Backend) => b.getSegmentModel, Success(ReviewSegmentModel))
  }

  /**
   * `get_segment_model` as written: its default `ReviewSegment` is not
   * imported by the module, so the default path raises NameError.
   */
  function GetSegmentModelAsWritten(s: Settings, packages: map<string, Backend>): Result<string, ConfigError>
  {
    Resolve(s, packages, (b: Backend) => b.getSegmentModel, Failure(NameError))
  }

  /** `get_form`. */
  function GetForm(s: Settings, packages: map<string, Backend>): Result<string, ConfigError>
  {
    Resolve(s, packages, (b: Backend) => b.getForm, Success(ReviewFormClass))
  }

  /** `get_segment_form`, with the default the function evidently means. */
  function GetSegmentForm(s: Settings, packages: map<string, Backend>): Result<string, ConfigError>
  {
    Resolve(s, packages, (b: Backend) => b.getSegmentForm, Success(ReviewSegmentFormClass))
  }

  /** `get_segment_form` as written: `ReviewSegmentForm` is not imported either. */
  function GetSegmentFormAsWritten(s: Settings, packages: map<string, Backend>): Result<string, ConfigError>
  {
    Resolve(s, packages, (b: Backend) => b.getSegmentForm, Failure(NameError))
  }

  /** `get_form_target`: the hook, or the reversed URL of the post view. */
  function GetFormTarget(s: Settings, packages: map<string, Backend>,
                         reverse: (string, seq<string>) -> string): Result<string, ConfigError>
  {
    Resolve(s, packages, (b: Backend) => b.getFormTarget, Success(reverse("reviews-post-review", [])))
  }

  /** The default moderation URL: the named view reversed with the review's id. */
  function ModerationUrl(reverse: (string, seq<string>) -> string, view: string, review: ReviewData): string
  {
    reverse(view, [IdText(review.id)])
  }

  /** `get_flag_url`. */
  function GetFlagUrl(s: Settings, packages: map<string, Backend>,
                      reverse: (string, seq<string>) -> string, review: ReviewData): Result<string, ConfigError>
  {
    Resolve(s, packages, (b: Backend) => if b.getFlagUrl.Some? then Some(b.getFlagUrl.value(review)) else None,
            Success(ModerationUrl(reverse, "reviews.views.moderation.flag", review)))
  }

  /** `get_delete_url`. */
  function GetDeleteUrl(s: Settings, packages: map<string, Backend>,
                        reverse: (string, seq<string>) -> string, review: ReviewData): Result<string, ConfigError>
  {
    Resolve(s, packages, (b: Backend) => if b.getDeleteUrl.Some? then Some(b.getDeleteUrl.value(review)) else None,
            Success(ModerationUrl(reverse, "reviews.views.moderation.delete", review)))
  }

  /** `get_approve_url`. */
  function GetApproveUrl(s: Settings, packages: map<string, Backend>,
                         reverse: (string, seq<string>) -> string, review: ReviewData): Result<string, ConfigError>
  {
    Resolve(s, packages, (b: Backend) => if b.getApproveUrl.Some? then Some(b.getApproveUrl.value(review)) else None,
            Success(ModerationUrl(reverse, "reviews.views.moderation.approve", review)))
  }

  /**
   * With REVIEWS_APP unset or equal to the default, every resolver returns the
   * built-in and never looks at INSTALLED_APPS or the importable packages.
   */
  lemma DefaultAppUsesBuiltins(s: Settings, packages: map<string, Backend>,
                               reverse: (string, seq<string>) -> string, review: ReviewData)
    requires ReviewAppName(s) == DefaultReviewsApp
    ensures GetModel(s, packages) == Success(ReviewModel)
    ensures GetSegmentModel(s, packages) == Success(ReviewSegmentModel)
    ensures GetForm(s, packages) == Success(ReviewFormClass)
    ensures GetSegmentForm(s, packages) == Success(ReviewSegmentFormClass)
    ensures GetFormTarget(s, packages, reverse) == Success(reverse("reviews-post-review", []))
    ensures GetFlagUrl(s, packages, reverse, review) ==
      Success(reverse("reviews.views.moderation.flag", [IdText(review.id)]))
    ensures GetDeleteUrl(s, packages, reverse, review) ==
      Success(reverse("reviews.views.moderation.delete", [IdText(review.id)]))
    ensures GetApproveUrl(s, packages, reverse, review) ==
      Success(reverse("reviews.views.moderation.approve", [IdText(review.id)]))
  {
  }

  /**
   * A misconfigured custom app breaks every resolver, even those whose hook
   * the package would not have defined and that would have fallen back to the
   * default.
   */
  lemma MisconfigurationPropagates(s: Settings, packages: map<string, Backend>,
                                   reverse: (string, seq<string>) -> string, review: ReviewData)
    requires ReviewAppName(s) != DefaultReviewsApp
    requires ReviewAppName(s) !in s.installedApps || ReviewAppName(s) !in packages
    ensures var e := ReviewApp(s, packages).error;
      && (e == NotInstalled || e == NoSuchPackage)
      && GetModel(s, packages) == Failure(e) && GetSegmentModel(s, packages) == Failure(e)
      && GetForm(s, packages) == Failure(e) && GetSegmentForm(s, packages) == Failure(e)
      && GetFormTarget(s, packages, reverse) == Failure(e)
      && GetFlagUrl(s, packages, reverse, review) == Failure(e)
      && GetDeleteUrl(s, packages, reverse, review) == Failure(e)
      && GetApproveUrl(s, packages, reverse, review) == Failure(e)
  {
  }

  /** A hook the configured package defines always wins over the default. */
  lemma HookOverridesDefault(s: Settings, packages: map<string, Backend>, review: ReviewData,
                             reverse: (string, seq<string>) -> string)
    requires ReviewAppName(s) != DefaultReviewsApp
    requires ReviewAppName(s) in s.installedApps && ReviewAppName(s) in packages
    ensures var b := packages[ReviewAppName(s)];
      && (b.getModel.Some? ==> GetModel(s, packages) == Success(b.getModel.value))
      && (b.getModel.None? ==> GetModel(s, packages) == Success(ReviewModel))
      && (b.getForm.Some? ==> GetForm(s, packages) == Success(b.getForm.value))
      && (b.getForm.None? ==> GetForm(s, packages) == Success(ReviewFormClass))
      && (b.getSegmentModel.Some? ==> GetSegmentModel(s, packages) == Success(b.getSegmentModel.value))
      && (b.getSegmentModel.None? ==> GetSegmentModel(s, packages) == Success(ReviewSegmentModel))
      && (b.getSegmentForm.Some? ==> GetSegmentForm(s, packages) == Success(b.getSegmentForm.value))
      && (b.getSegmentForm.None? ==> GetSegmentForm(s, packages) == Success(ReviewSegmentFormClass))
      && (b.getFormTarget.Some? ==> GetFormTarget(s, packages, reverse) == Success(b.getFormTarget.value))
      && (b.getFormTarget.None? ==> GetFormTarget(s, packages, reverse) == Success(reverse("reviews-post-review", [])))
      && (b.getFlagUrl.Some? ==> GetFlagUrl(s, packages, reverse, review) == Success(b.getFlagUrl.value(review)))
      && (b.getFlagUrl.None? ==>
            GetFlagUrl(s, packages, reverse, review) == Success(ModerationUrl(reverse, "reviews.views.moderation.flag", review)))
      && (b.getDeleteUrl.Some? ==> GetDeleteUrl(s, packages, reverse, review) == Success(b.getDeleteUrl.value(review)))
      && (b.getDeleteUrl.None? ==>
            GetDeleteUrl(s, packages, reverse, review) == Success(ModerationUrl(reverse, "reviews.views.moderation.delete", review)))
      && (b.getApproveUrl.Some? ==> GetApproveUrl(s, packages, reverse, review) == Success(b.getApproveUrl.value(review)))
      && (b.getApproveUrl.None? ==>
            GetApproveUrl(s, packages, reverse, review) == Success(ModerationUrl(reverse, "reviews.views.moderation.approve", review)))
  {
  }

  /** The default moderation URLs depend on nothing but the review's id. */
  lemma ModerationUrlsDependOnlyOnId(s: Settings, packages: map<string, Backend>,
                                     reverse: (string, seq<string>) -> string, r1: ReviewData, r2: ReviewData)
    requires ReviewAppName(s) == DefaultReviewsApp && r1.id == r2.id
    ensures GetFlagUrl(s, packages, reverse, r1) == GetFlagUrl(s, packages, reverse, r2)
    ensures GetDeleteUrl(s, packages, reverse, r1) == GetDeleteUrl(s, packages, reverse, r2)
    ensures GetApproveUrl(s, packages, reverse, r1) == GetApproveUrl(s, packages, reverse, r2)
  {
  }

  /**
   * With the default app, the segment model and segment form resolvers as
   * written raise NameError, where the corrected ones return the built-ins.
   */
  lemma SegmentResolversAsWrittenFail(s: Settings, packages: map<string, Backend>)
    requires ReviewAppName(s) == DefaultReviewsApp
    ensures GetSegmentModelAsWritten(s, packages) == Failure(NameError)
    ensures GetSegmentFormAsWritten(s, packages) == Failure(NameError)
    ensures GetSegmentModel(s, packages) == Success(ReviewSegmentModel)
    ensures GetSegmentForm(s, packages) == Success(ReviewSegmentFormClass)
  {
  }
}
