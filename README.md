# reviews — a Dafny model of the review submission pipeline

The `reviews` Django application lets visitors write a review of any object
of a host site. A review has a free-text body and a category, and the
category contributes rated "segments". This project models the core of the
application with the web framework removed, and proves properties of it:

- **The submission form** (`Forms`, `forms.dfy`):
  - the signed category token (`prepare_value` / `to_python`);
  - the profanity filter with its masked report;
  - the security stamp: a salted HMAC over `content_type-object_pk-timestamp`, a legacy SHA-1 fallback, and a two-hour window on the timestamp;
  - the honeypot field;
  - per-field cleaning into the error dictionary, and the restriction of that dictionary to security errors;
  - the constructor that stamps the `initial` dictionary;
  - the ordered list of segment sub-forms;
  - building the new review, and silently replacing it by a same-day duplicate.
- **The backend registry** (`Registry`, `registry.dfy`). The `REVIEWS_APP` setting may name an installed package whose hooks replace the built-in model, forms, form target and moderation URLs.
- **The models** (`Models`, `models.dfy`):
  - rows of reviews, review segments and flags in a `Store`, with the database's guarantees as an invariant: ids unique and set, reviews dated, flags unique per (user, review, flag);
  - the `Review` and `ReviewFlag` instances, whose `save` fills in a missing date and writes the row;
  - the cached `userinfo` with its name and e-mail precedence;
  - the read-only `email` setter for reviews by signed-in users;
  - `get_absolute_url`.
- **The template tags** (`ReviewTags`, `reviewtags.dfy`):
  - the query set of reviews listed for an object;
  - the `as varname` result handling on a stack-of-dictionaries context;
  - the count tag;
  - the pk guard and template list of the form-rendering tag.
- **The submission view** (`Views`, `views.dfy`). `post_review` runs as an imperative pipeline:
  1. fill in the author from the signed-in user;
  2. `next`, then the target fields and the object lookup;
  3. the category token;
  4. security errors, then preview and field errors;
  5. the pre-save veto loop;
  6. save the review, then its segments in order;
  7. the post-save signal and the redirect carrying the new review's id.

Collaborators the source only calls are parameters:

- **Cryptography.** SHA-1, HMAC-SHA1 and `signing.dumps`/`loads` are function-valued fields of a `Crypto` record. The only facts assumed about them are stated in the predicate `Crypto.Sound`: digests are 40 characters long, and `loads(dumps(v)) == v`.
- **The clock.** `time.time()` is a `real` and `datetime.now()` a `DateTime`.
- **The object lookup**, the pre-save receivers, and URL reversing.
- **The database** is a `Store` value that the operations thread through.

Behaviour of the code worth noting, which the model keeps:

- The profanity check lower-cases only the text (`forms.py:47`), so a listed word with an upper-case letter never matches.
- A pre-save receiver vetoes when its reply `== False` (`views.py:129`). That includes `0`, `0.0`, `Decimal(0)` and any object whose `__eq__` says so.
- A missing or forged category token raises an exception (`views.py:76`) instead of producing a 400 response.
- Reviews are ordered by `submit_date` (`models.py:87`). That ordering applies both to the listing query and to the duplicate candidates. The listing has no category filter, offset or limit (`reviewtags.py:40-56`).
- A timestamp exactly two hours old is still accepted (`forms.py:108`).
- With REVIEWS_APP unset and `reviews` missing from INSTALLED_APPS, the error message reads `settings.REVIEWS_APP`, which raises AttributeError (`__init__.py:17-18`).

## Model

| member | source | states |
|---|---|---|
| Text.Lower | reviews/forms.py:47 | `text.lower()` keeps the length and lower-cases each character |
| Text.IsSubstringAt | reviews/forms.py:47 | Python's `w in t` holds iff `w` occurs in `t` at some offset |
| Text.IntToStringRoundTrip | reviews/forms.py:117 | `int(str(n)) == n`: a rendered timestamp or id parses back to itself |
| Forms.PrepareValueVerifies | reviews/forms.py:26-32 | a prepared category always verifies, and a value that did not verify is signed so that it decodes back to itself |
| Forms.PrepareValueIdempotent | reviews/forms.py:26-32 | preparing a prepared value changes nothing: a token is never signed twice |
| Forms.ToPython | reviews/forms.py:34-39 | decoding succeeds iff `signing.loads` accepts the value, and then yields exactly the decoded value; otherwise `BadSignature` escapes |
| Forms.PreparedCategoryRoundTrip | reviews/forms.py:26-39 | a category code rendered into the form decodes to the same code on submission |
| Forms.BadWords | reviews/forms.py:47 | the offending words are exactly the listed words occurring in the lower-cased text, never more than the list |
| Forms.BadWordsAppend | reviews/forms.py:47 | the offending words keep the order of the list |
| Forms.UpperCaseWordNeverMatches | reviews/forms.py:47 | a listed word containing an upper-case letter never matches any text |
| Forms.Dashes | reviews/forms.py:53 | `'-' * n` has `max(n, 0)` dashes |
| Forms.Mask | reviews/forms.py:53 | the mask keeps the first and last character with dashes between, has the word's length for words of two or more characters, and doubles a one-character word |
| Forms.CleanText | reviews/forms.py:41-54 | the text passes unchanged iff profanities are allowed or no listed word occurs; otherwise every offending word is reported masked, in list order, with the flag `len(bad_words) > 1` that the code passes to `ungettext` as its count; an empty listed word raises IndexError |
| Forms.ProfanityWordingAsWritten | reviews/forms.py:49-52 | as written, the flag is the count: one offending word gets the plural wording and several get the singular |
| Forms.ProfanityWording | reviews/forms.py:49-52 | the singular wording iff exactly one word is offending |
| Forms.ProfanityWordingInverted | reviews/forms.py:49-52 | for every rejected text the two selectors disagree, and the intended wording is plural iff the report's flag is set |
| Forms.CleanSecurityHash | reviews/forms.py:86-102 | the submitted hash is accepted iff it equals the salted HMAC or the legacy SHA-1 hash of the submitted content type, key and timestamp; it is returned unchanged, and a rejection is a security-hash error |
| Forms.CleanTimestamp | reviews/forms.py:104-109 | the timestamp is rejected iff `now - ts > 7200`, independently of the hash |
| Forms.TimestampExpiryIsFinal | reviews/forms.py:104-109 | once rejected, a timestamp stays rejected at every later time |
| Forms.CleanChar | reviews/forms.py:61-64 | a required char field rejects exactly a missing or empty value, and an optional one accepts it as `""`; a non-empty value is accepted, unchanged, iff it is within the length bounds; an over-long value gets TooLong, and a too-short one within the maximum gets TooShort |
| Forms.CleanHoneypotField | reviews/forms.py:252-257 | the honeypot is spam iff it has content, and is clean and empty otherwise |
| Forms.FieldOutcomes | reviews/forms.py:61-64 | the nine fields are cleaned in declaration order: content type, object pk, timestamp, security hash, name, e-mail, text, category, honeypot |
| Forms.CollectErrors | reviews/forms.py:82-83 | the error dictionary exists iff no field raised; it holds exactly the invalid fields with their errors; a failure is the exception of the first raising field in declaration order |
| Forms.HoneypotAlwaysFlagged | reviews/forms.py:252-257 | a filled-in honeypot always puts a spam error under `honeypot`, a security field |
| Forms.StampedHashAccepted | reviews/forms.py:86-102 | a stamp's hash submitted with its own content type, key and timestamp is accepted |
| Forms.StampedTimestamp | reviews/forms.py:104-109 | a stamped timestamp is clean iff at most two hours old, and otherwise fails the timestamp check |
| Forms.SecurityDataSubmitted | reviews/forms.py:111-120 | data submitted with a stamp carries the stamp's content type, key, timestamp and hash |
| Forms.StampedFieldsClean | reviews/forms.py:111-133 | the stamp's content type, key and hash fields clean; the timestamp is invalid iff older than two hours |
| Forms.GeneratedDataPasses | reviews/forms.py:111-148 | unless another field raises, the data `generate_security_data` renders passes its own checks: no error for content type, key or hash, and a timestamp error iff more than two hours have passed |
| Forms.SecurityErrors | reviews/forms.py:78-84 | the security errors are exactly the entries of the error dictionary under `honeypot`, `timestamp` and `security_hash`, with the same errors |
| Forms.ReviewSecurityForm.constructor | reviews/forms.py:66-76 | the initial dictionary (a fresh one when none is given) gets the category, then the generated security data |
| Forms.CategoriesWithCode | reviews/forms.py:211 | the categories with the code, and only those |
| Forms.CategoriesWithCodeMultiplicity | reviews/forms.py:211 | each category with the code is kept as often as it is listed, and every other category is dropped |
| Forms.CategoryByCode | reviews/forms.py:211 | `get(code=...)` succeeds iff exactly one category has the code, and returns that one; it raises DoesNotExist iff there is none and MultipleObjectsReturned iff there are several |
| Forms.SegmentsOf | reviews/forms.py:214 | the segments of a category, and only those, taken from the input |
| Forms.InsertByPositionPermutes | reviews/forms.py:214 | inserting a segment adds exactly that segment |
| Forms.InsertByPositionCorrect | reviews/forms.py:214 | inserting into a list ordered by position keeps it ordered |
| Forms.SortByPositionCorrect | reviews/forms.py:214 | `order_by('position')` yields an ascending permutation of its input |
| Forms.GetSegmentFormset | reviews/forms.py:210-223 | one initial entry per segment of the category, in ascending position, each with empty text; a missing or ambiguous category code raises |
| Forms.SegmentFormsetOrdered | reviews/forms.py:210-223 | the entries are sorted by position and cover the category's segments exactly once each |
| Forms.GetSegmentFormsetAsWritten | reviews/forms.py:214 | as written, every existing category raises FieldError, because the segment model has no `position` field |
| Forms.SegmentFormsetAsWrittenFails | reviews/forms.py:214 | for a category with two segments, the code as written raises where the corrected one lists both |
| Forms.ReviewCreateData | reviews/forms.py:191-208 | the new review is unsaved, public, not removed, dated now, of the target on this site, with the cleaned name, e-mail, text and category; an unknown category code raises |
| Forms.FirstDuplicate | reviews/forms.py:238-240 | the first review of a candidate list passing the duplicate test, and none before it does |
| Forms.CheckForDuplicateReview | reviews/forms.py:225-242 | the loop over the candidates in `submit_date` order returns the earliest stored duplicate, or the new review when there is none |
| Forms.FirstDuplicateIs | reviews/forms.py:238-240 | the first index passing the duplicate test is the one found |
| Forms.DuplicateOf | reviews/forms.py:230-240 | the duplicate found among the stored reviews taken in `submit_date` order: a stored duplicate no later than any other, and none iff no stored review is a duplicate (with `models.py:87`) |
| Forms.FirstDuplicateInOrder | reviews/forms.py:230-240 | the first duplicate of the sorted candidates is a stored duplicate no later than every stored duplicate, and there is none iff none is stored (with `models.py:87`) |
| Forms.FirstDuplicateOfPermutation | reviews/forms.py:230-240 | the same for any ordering of the stored reviews by date that has the same elements |
| Forms.DuplicateResolvesToStoredRow | reviews/forms.py:225-242 | a same-day duplicate in the store resolves to a stored review that has an id and is not later than any stored review |
| Forms.CheckForDuplicateAsWritten | reviews/forms.py:238-240 | as written, the check raises AttributeError iff a candidate from the same day exists, and otherwise returns the new review |
| Forms.DuplicateCheckAsWrittenRaises | reviews/forms.py:239 | a genuine same-day duplicate crashes the code as written, where the corrected check finds it |
| Forms.GetReviewObject | reviews/forms.py:165-181 | corrected for the missing `category` field: an invalid form raises ValueError; otherwise the new review, its creation error, or the earliest stored duplicate it repeats |
| Forms.GetReviewObjectAsWritten | reviews/forms.py:165-181 | as written, an invalid form raises ValueError, an unknown category its lookup error, and otherwise `ReviewModel(**create_data)` raises TypeError: no call succeeds (with `forms.py:203`) |
| Forms.ReviewObjectAsWrittenRaises | reviews/forms.py:178 | whenever the create data is built with a found category, the code as written raises TypeError (with `models.py:57-90`) |
| Registry.ReviewAppName | reviews/__init__.py:29-34 | the REVIEWS_APP setting when set, otherwise `'reviews'` |
| Registry.ReviewApp | reviews/__init__.py:10-27 | the package is returned iff it is installed and importable; a configured app not in INSTALLED_APPS is reported as not installed, the unset default not installed raises AttributeError, and an installed name with no package is reported as such |
| Registry.Resolve | reviews/__init__.py:40-43 | the default app uses the built-in without loading any package; otherwise the package's errors propagate, and its hook is used iff it exists |
| Registry.DefaultAppUsesBuiltins | reviews/__init__.py:36-110 | with the default app every resolver returns its built-in, and no configuration error can arise |
| Registry.MisconfigurationPropagates | reviews/__init__.py:14-27 | a custom app that is not installed or not importable breaks every resolver, even those that would have fallen back |
| Registry.HookOverridesDefault | reviews/__init__.py:40-90 | for each of the eight resolvers, a hook the configured package defines wins and a missing hook falls back to the built-in |
| Registry.ModerationUrlsDependOnlyOnId | reviews/__init__.py:82-110 | on the default path the flag, delete and approve URLs depend only on the review's id |
| Registry.SegmentResolversAsWrittenFail | reviews/__init__.py:45-70 | with the default app the segment resolvers as written raise NameError, where the corrected ones return the built-ins |
| Models.SaveReviewRow | reviews/models.py:95-98 | the saved row is dated now iff it had no date, keeps an existing id or receives the next one, and is otherwise unchanged; an unsaved row is appended, a saved one replaces the row with its id or is appended when there is none; the other tables are untouched |
| Models.SaveReviewRowValid | reviews/models.py:95-98 | saving a review keeps the database invariant and stores the saved row |
| Models.SaveSegmentRow | reviews/views.py:134-136 | a segment is saved unchanged apart from its new id and appended, or replaces the row with its id; the other tables are untouched |
| Models.SaveSegmentRowValid | reviews/views.py:134-136 | saving a segment keeps the database invariant and stores the row |
| Models.SaveFlagRow | reviews/models.py:176-188 | a flag is refused (IntegrityError) iff another row has the same user, review and flag; otherwise it is appended or replaces the row with its id, and the other tables are untouched |
| Models.SaveFlagRowValid | reviews/models.py:176-177 | no two stored flags share (user, review, flag) |
| Models.InsertBySubmitDate | reviews/models.py:87 | inserting a review into a date-ordered list adds exactly that review |
| Models.InsertBySubmitDateSorted | reviews/models.py:87 | inserting into a list sorted by `submit_date` keeps it sorted |
| Models.SortBySubmitDate | reviews/models.py:87 | the ordering keeps the length and the multiset of reviews |
| Models.SortBySubmitDateCorrect | reviews/models.py:87 | `ordering = ('submit_date',)` yields a permutation sorted by `submit_date`, with the same elements |
| Models.AuthorInfo | reviews/models.py:107-123 | without a user: the stored name and e-mail; with one, a non-empty account e-mail and a non-empty full name win, and the username is used only when the review has no name |
| Models.AuthorNameEmpty | reviews/models.py:117-123 | the reported name is empty iff every source of a name is empty |
| Models.Review.Save | reviews/models.py:95-98 | the instance and the store become the saved row: `submit_date` set to now iff it was unset, a new id for an unsaved review |
| Models.Review.Userinfo | reviews/models.py:100-125 | the first read computes the author info from the current fields and caches it; later reads return the cached value |
| Models.Review.Email | reviews/models.py:128-129 | the e-mail is that of `userinfo`, which is cached afterwards |
| Models.Review.SetEmail | reviews/models.py:130-134 | setting the e-mail raises and changes nothing iff the review has a user, and sets `user_email` otherwise |
| Models.Review.AbsoluteUrl | reviews/models.py:137-138 | the content object's URL followed by the anchor pattern with the id substituted; with the default pattern `#c%(id)s`, `#c` and an id that parses back |
| Models.DefaultAnchorFormat | reviews/models.py:137-138 | the default pattern `#c%(id)s` renders `#c` followed by the id, which parses back |
| Models.ReviewFlag.constructor | reviews/models.py:166-169 | a new flag has no id and no date |
| Models.ReviewFlag.Save | reviews/models.py:185-188 | `flag_date` set to now iff it was unset; a duplicate (user, review, flag) leaves the store unchanged, and anything else is written |
| ReviewTags.Filter | reviews/templatetags/reviewtags.py:40-54 | a filter keeps exactly the rows that satisfy it, in order |
| ReviewTags.QuerySet | reviews/templatetags/reviewtags.py:35-56 | empty for a falsy pk; otherwise exactly the reviews of the target on this site, public when the model has `is_public`, not removed when hiding is on and the model has `is_removed`, each with its multiplicity in the store, sorted by `submit_date` (with `models.py:87`) |
| ReviewTags.RemovedKeptUnlessHidden | reviews/templatetags/reviewtags.py:53-54 | a removed review of the target is listed iff removed reviews are not hidden |
| ReviewTags.Context.Set | reviews/templatetags/reviewtags.py:64 | binds the key in the innermost dictionary only, and a lookup then finds the value |
| ReviewTags.Context.Push | reviews/templatetags/reviewtags.py:152 | adds an empty innermost dictionary |
| ReviewTags.Context.Pop | reviews/templatetags/reviewtags.py:156 | drops the innermost dictionary |
| ReviewTags.LookupIn | reviews/templatetags/reviewtags.py:64 | a key is found iff some dictionary binds it, and the value is the binding in the innermost dictionary that binds it |
| ReviewTags.HandleResult | reviews/templatetags/reviewtags.py:58-67 | with a non-empty varname the result is bound in the context and `''` is rendered; otherwise the result is rendered and the context is unchanged |
| ReviewTags.CountTag | reviews/templatetags/reviewtags.py:74-106 | the count is the size of the query set; it is rendered, or bound to the variable in the innermost dictionary with the rest of the context unchanged |
| ReviewTags.CountBounds | reviews/templatetags/reviewtags.py:105-106 | the count never exceeds the reviews of the target, and is zero for a pk-less target |
| ReviewTags.TemplateCandidates | reviews/templatetags/reviewtags.py:140-151 | six candidates, from the app-and-model template to the generic one |
| ReviewTags.RenderReviewForm | reviews/templatetags/reviewtags.py:137-159 | `''` for a pk-less target, otherwise the form rendered from the candidate list; the context is restored |
| Views.FilledData | reviews/views.py:39-44 | for a signed-in user an empty name becomes the full name (or username) and an empty e-mail the account's; every other field is as posted |
| Views.FilledDataKeepsOtherFields | reviews/views.py:39-44 | the fill-in leaves the target, category, honeypot, preview and next fields as posted |
| Views.FillIn | reviews/views.py:39-44 | the copied POST data after the fill-in |
| Views.SaveSegments | reviews/views.py:134-136 | saving segments touches no review or flag |
| Views.SaveNewSegments | reviews/views.py:134-136 | unsaved segments are appended in order, each bound to the review with consecutive new ids, keeping the invariant |
| Views.SaveSegmentsValid | reviews/views.py:134-136 | saving any segments keeps the database invariant |
| Views.SaveSegmentsInOrder | reviews/views.py:134-136 | the segment loop saves each segment in order, bound to the review |
| Views.FirstVeto | reviews/views.py:127-130 | the first receiver whose reply `== False` (also `0`, `0.0`, `Decimal(0)`, or a custom `__eq__`); none before it vetoes, and none at all when no veto is found |
| Views.CheckForm | reviews/views.py:79-108 | in both directions: an exception while cleaning escapes; security errors give a bad request carrying them, checked first; otherwise field errors, an invalid formset or `preview` give the preview with the errors; a clean form, and only a clean form, goes on |
| Views.SecurityErrorStops | reviews/views.py:79-88 | security errors stop a request before the preview and the post |
| Views.SpamNeverPasses | reviews/views.py:79-84 | a filled-in honeypot is never previewed or posted |
| Views.Admit | reviews/views.py:39-108 | the gates in order: fill-in, `next`, missing target fields (bad request), lookup failure (bad request), missing or forged category (raises), then the form gates; the request is admitted iff it passes them all, and otherwise stops with the response of the first gate it fails (`GateOf`, `StoppedAt`) |
| Views.PostedReview | reviews/views.py:111-114 | corrected for the missing `category` field: the review handed to the receivers is the earliest stored duplicate or the new review, with the request's address and, for a signed-in user, that user, and dated; it fails iff the category code is unknown |
| Views.RepostUpdatesStoredReview | reviews/forms.py:238-240 | reposting a same-day duplicate reuses the stored review's id, so saving adds no row |
| Views.BuildReview | reviews/views.py:111-114 | the review object is exactly the posted review, or the form's exception |
| Views.PostReviewAsWrittenNeverPosts | reviews/views.py:111 | as written, the review object of an admitted submission is never built: TypeError exactly where the corrected view posts, and the same error where it fails (with `forms.py:178`) |
| Views.Commit | reviews/views.py:111-144 | after the gates: an exception writes nothing; a veto writes nothing; otherwise the review is saved, then its segments, then the post-save signal, and the redirect carries the review's id |
| Views.PostReview | reviews/views.py:31-144 | the whole view, with the review object corrected: the first gate a request fails decides the response, and a request through all gates is posted unless building its review raises or a receiver vetoes; conversely, nothing is written unless redirected, the exact review handed to the receivers, the veto, and on success the saved review and segments, a consistent store, both signals and `c` = the review's id |

## Left out

- Text.Lower: only ASCII letters are lower-cased. Python's Unicode case mapping is not modelled.
- Forms.CleanChar: Django's field coercion beyond presence and length is not modelled. This covers whitespace handling and the e-mail syntax check, which is a parameter (`isEmail`).
- Forms.CleanTimestampField: `int()` is modelled as an optional sign followed by ASCII digits, with no surrounding whitespace.
- The cryptography is abstract, so the model cannot state that tampering with a stamp is detected. That needs collision resistance of HMAC-SHA1, which a model cannot prove. The `constant_time_compare` timing is not modelled either.
- Error message texts, `get_text_list` quoting and translation are not modelled. A profanity error carries the masked words and the plural flag.
- The ORM, template rendering, `reverse` and `RequestContext` are parameters or omitted. `next_redirect` is reduced to its `next` value and the `c` argument.
- `form.formset.is_valid()` (views.py:88) and `form.get_segment_objects()` (views.py:117) are not defined by the form classes. They are inputs to the view.
- Segments are rows (values): the in-place `segment.review = review` is the row update.
- The view models the default form, `ReviewForm`. Its resolution through `get_form` is modelled in `Registry` but is not composed into the view.
- Content types are their `app_label.model` strings. `ContentType` lookup is not modelled.
- `using(db)` routing and concurrency are not modelled. The database's unique constraint is modelled as the flag invariant.
- The caller's `initial` dictionary is copied, not aliased.
- `GetReviewList`, `GetReviewtForm` and `review_form_target` only return a query set, a form instance or a URL. They are not modelled.
- Models.Review.AbsoluteUrl: the anchor pattern is literal text and `%(id)s` placeholders only. Other `%` directives and other fields of `__dict__` are not modelled.
- Forms.SortByPosition: segments with the same `position` keep their input order, where the database leaves it unspecified.
- Forms.CleanChar: Django runs both length validators and reports every failure. Every field of this form has a minimum no larger than its maximum, so at most one fails; for a minimum above the maximum the model reports only TooLong.
- Models.SortBySubmitDate: reviews with the same `submit_date` keep their store order, where the database leaves it unspecified, and a missing date sorts first.
- Views.FirstVeto: a reply that is neither `None`, a bool, an integer nor a number is modelled by the answer of its `__eq__` against `False`.
- Views.PostedReview and Views.PostReview model the review object as corrected in the Findings (`forms.py:178`). The view as written never gets past it (Views.PostReviewAsWrittenNeverPosts).
- `get_as_text`, `__unicode__` and `ReviewSegmentBaseForm.get_categorysegment` are display helpers and are not modelled.

## Findings

| source | as written | input that shows it | evidently intended | confidence | as-written member | corrected member |
|---|---|---|---|---|---|---|
| reviews/forms.py:239 | compares `old.review == new.review`, an attribute `Review` does not have | a stored review by the same author of the same object, from the same day | compare the review text (`models.py:70`) and return the stored review | high, not executed | Forms.CheckForDuplicateAsWritten, Forms.DuplicateCheckAsWrittenRaises | Forms.CheckForDuplicateReview, Forms.DuplicateResolvesToStoredRow, Views.RepostUpdatesStoredReview |
| reviews/forms.py:214 | `order_by('position')` on `CategorySegment`, whose model (`models.py:21-23`) declares no `position` field, although the migration adds the column | category `service` with segments `cleanliness` and `speed` | order the segments by their `position` column | medium, not executed | Forms.GetSegmentFormsetAsWritten, Forms.SegmentFormsetAsWrittenFails | Forms.GetSegmentFormset, Forms.SegmentFormsetOrdered |
| reviews/__init__.py:52 | returns `ReviewSegment`, which the module never imports | REVIEWS_APP unset | return the built-in segment model | high, not executed | Registry.GetSegmentModelAsWritten, Registry.SegmentResolversAsWrittenFail | Registry.GetSegmentModel, Registry.DefaultAppUsesBuiltins |
| reviews/__init__.py:70 | returns `ReviewSegmentForm`, which the module never imports | REVIEWS_APP unset | return the built-in segment form | high, not executed | Registry.GetSegmentFormAsWritten, Registry.SegmentResolversAsWrittenFail | Registry.GetSegmentForm, Registry.DefaultAppUsesBuiltins |
| reviews/forms.py:178 | `ReviewModel(**create_data)` passes `category` (`forms.py:203`) to `Review`, which declares no such field (`models.py:57-90`) | any valid form whose category code exists | build the review without the unknown keyword, or declare the field | high, not executed | Forms.GetReviewObjectAsWritten, Forms.ReviewObjectAsWrittenRaises, Views.PostReviewAsWrittenNeverPosts | Forms.GetReviewObject, Views.PostedReview, Views.PostReview |
| reviews/forms.py:49-52 | passes the boolean `len(bad_words) > 1` to `ungettext` as its count | a text containing exactly one listed word | pass `len(bad_words)`, so one word gets the singular wording | high, not executed | Forms.ProfanityWordingAsWritten, Forms.ProfanityWordingInverted | Forms.ProfanityWording |
