/**
 * The review submission form: the signed category token, the profanity
 * filter, the security stamp (content type, object key, timestamp and their
 * hash), the honeypot, per-field cleaning, the segment sub-form list and the
 * silent suppression of duplicate reviews.
 */
module Forms {
  import opened Wrappers
  import opened Text
  import opened Crypto
  import opened Models

  /** The default of the REVIEW_MAX_LENGTH setting. */
  const DefaultMaxLength := 3000
  /** The accepted age of a timestamp, in seconds (2 hours). */
  const TimestampWindow := 2 * 60 * 60
  /** The key salt of the security hash. */
  const KeySalt := "django.contrib.forms.ReviewSecurityForm"
  /** The names of the fields whose errors are security errors. */
  const SecurityFields: set<FormField> := {HoneypotField, TimestampField, SecurityHashField}

  /**
   * Settings the form reads: REVIEW_MAX_LENGTH, REVIEWS_ALLOW_PROFANITIES,
   * PROFANITIES_LIST, and the e-mail syntax check of the e-mail field.
   */
  datatype FormSettings = FormSettings(
    maxLength: nat,
    allowProfanities: bool,
    profanities: seq<string>,
    isEmail: string -> bool)

  /** The fields of the review form, in declaration order. */
  datatype FormField =
    | ContentTypeField | ObjectPkField | TimestampField | SecurityHashField
    | NameField | EmailField | TextField | CategoryField | HoneypotField

  /** The name under which a field is posted. */
  function FieldName(f: FormField): string
  {
    match f
    case ContentTypeField => "content_type"
    case ObjectPkField => "object_pk"
    case TimestampField => "timestamp"
    case SecurityHashField => "security_hash"
    case NameField => "name"
    case EmailField => "email"
    case TextField => "text"
    case CategoryField => "category"
    case HoneypotField => "honeypot"
  }

  /** A per-field validation error (shown to the user; the form can be corrected). */
  datatype FieldError =
    | Required
    | InvalidNumber
    | TooShort(min: nat)
    | TooLong(max: nat)
    | InvalidEmail
    | TimestampFailed
    | SecurityHashFailed
    | Profanity(masked: seq<string>, plural: bool)
    | Spam

  /** Exceptions that escape the form instead of becoming field errors. */
  datatype FormException =
    | BadSignature
    | MissingToken
    | IndexError
    | DoesNotExist
    | MultipleObjectsReturned
    | AttributeError
    | FieldError
    | ValueError
    | TypeError

  // ---------------------------------------------------------------------
  // SignedCharField

  /** `prepare_value`: a value that already verifies is kept, anything else is signed. */
  function PrepareValue(c: Crypto, value: string): string
  {
    if c.loads(value).Some? then value else c.dumps(value)
  }

  /** A prepared value always verifies and decodes to the value when it was re-signed. */
  lemma PrepareValueVerifies(c: Crypto, value: string)
    requires c.Sound()
    ensures c.loads(PrepareValue(c, value)).Some?
    ensures c.loads(value).None? ==> c.loads(PrepareValue(c, value)) == Some(value)
  {
  }

  /** Rendering a form twice does not sign the category twice. */
  lemma PrepareValueIdempotent(c: Crypto, value: string)
    requires c.Sound()
    ensures PrepareValue(c, PrepareValue(c, value)) == PrepareValue(c, value)
  {
  }

  /** `to_python`: the signed value, or the `BadSignature` exception. */
  function ToPython(c: Crypto, value: string): (r: Result<string, FormException>)
    ensures r.Success? <==> c.loads(value).Some?
    ensures r.Success? ==> r.value == c.loads(value).value
    ensures r.Failure? ==> r.error == BadSignature
  {
    match c.loads(value)
    case Some(v) => Success(v)
    case None => Failure(BadSignature)
  }

  /** What a rendered category decodes to on submission. */
  lemma PreparedCategoryRoundTrip(c: Crypto, code: string)
    requires c.Sound() && c.loads(code).None?
    ensures ToPython(c, PrepareValue(c, code)) == Success(code)
  {
  }

  // ---------------------------------------------------------------------
  // Profanity filter

  /** The listed words that occur in `lowered`, in list order (duplicates kept). */
  function BadWords(words: seq<string>, lowered: string): (r: seq<string>)
    ensures |r| <= |words|
    ensures forall w :: w in r <==> w in words && IsSubstring(w, lowered)
  {
    if words == [] then []
    else (if IsSubstring(words[0], lowered) then [words[0]] else []) + BadWords(words[1..], lowered)
  }

  /** Filtering a concatenated list is the concatenation of the filtered parts: list order is kept. */
  lemma {:induction false} BadWordsAppend(a: seq<string>, b: seq<string>, lowered: string)
    ensures BadWords(a + b, lowered) == BadWords(a, lowered) + BadWords(b, lowered)
  {
    if a == [] {
      assert a + b == b;
    } else {
      assert (a + b)[0] == a[0];
      assert (a + b)[1..] == a[1..] + b;
      BadWordsAppend(a[1..], b, lowered);
    }
  }

  /**
   * Only the text is lower-cased, not the listed word: a listed word with an
   * upper-case letter never matches any text.
   */
  lemma {:induction false} UpperCaseWordNeverMatches(w: string, text: string, i: nat)
    requires i < |w| && 'A' <= w[i] <= 'Z'
    ensures !IsSubstring(w, Lower(text))
  {
    IsSubstringAt(w, Lower(text));
  }

  /** `'-' * n`, empty when n is not positive. */
  function Dashes(n: int): (r: string)
    ensures |r| == Max(n, 0)
    ensures forall i :: 0 <= i < |r| ==> r[i] == '-'
    decreases n
  {
    if n <= 0 then "" else "-" + Dashes(n - 1)
  }

  /**
   * The masked form of an offending word: first character, a dash for every
   * inner character, last character. A one-character word shows twice.
   */
  function Mask(w: string): (r: string)
    requires |w| > 0
    ensures |w| >= 2 ==> |r| == |w|
    ensures |w| == 1 ==> r == w + w
    ensures |r| >= 2 && r[0] == w[0] && r[|r| - 1] == w[|w| - 1]
    ensures forall i :: 0 < i < |r| - 1 ==> r[i] == '-'
  {
    [w[0]] + Dashes(|w| - 2) + [w[|w| - 1]]
  }

  /** The outcome of `clean_text`. */
  datatype TextCheck =
    | TextOk(text: string)
    | Profane(words: seq<string>, masked: seq<string>, plural: bool)
    | TextIndexError

  /**
   * `clean_text`: unless profanities are allowed, every listed word that is a
   * substring of the lower-cased text is an offence; offences are reported
   * masked, in list order, together with the flag `len(bad_words) > 1` that
   * is passed to `ungettext` as its count. An empty listed word matches every text and cannot be masked: `i[0]`
   * raises IndexError.
   */
  function CleanText(s: FormSettings, text: string): (r: TextCheck)
    ensures r.TextOk? <==> s.allowProfanities || forall w :: w in s.profanities ==> !IsSubstring(w, Lower(text))
    ensures r.TextOk? ==> r.text == text
    ensures r.TextIndexError? <==> !s.allowProfanities && "" in s.profanities
    ensures r.Profane? ==>
      && r.words == BadWords(s.profanities, Lower(text)) && r.words != []
      && |r.masked| == |r.words|
      && (forall i :: 0 <= i < |r.words| ==> |r.words[i]| > 0 && r.masked[i] == Mask(r.words[i]))
      && (r.plural <==> |r.words| > 1)
  {
    if s.allowProfanities then TextOk(text)
    else
      var bad := BadWords(s.profanities, Lower(text));
      if bad == [] then
        assert forall w :: w in s.profanities ==> !IsSubstring(w, Lower(text));
        TextOk(text)
      else if "" in bad then TextIndexError
      else
        assert bad[0] in bad;
        assert "" !in s.profanities by { EmptyIsSubstring(Lower(text)); }
        Profane(bad, seq(|bad|, i requires 0 <= i < |bad| => Mask(bad[i])), |bad| > 1)
  }

  /** The two wordings of the profanity message. */
  datatype Wording = Singular | Plural

  /** `ungettext(singular, plural, n)` in English: the singular iff `n == 1`. */
  function NGetText(n: int): Wording
  {
    if n == 1 then Singular else Plural
  }

  /**
   * The wording `clean_text` selects as written: the flag `len > 1` is the
   * count, and `True == 1`, so several words get the singular and a single
   * word the plural.
   */
  function ProfanityWordingAsWritten(count: nat): (w: Wording)
    ensures count == 1 ==> w == Plural
    ensures count > 1 ==> w == Singular
  {
    NGetText(if count > 1 then 1 else 0)
  }

  /** The evidently intended wording: the number of offending words is the count. */
  function ProfanityWording(count: nat): (w: Wording)
    ensures w == Singular <==> count == 1
  {
    NGetText(count)
  }

  /** For every text with offending words the two selectors disagree. */
  lemma ProfanityWordingInverted(s: FormSettings, text: string)
    requires CleanText(s, text).Profane?
    ensures var n := |CleanText(s, text).words|;
      ProfanityWordingAsWritten(n) != ProfanityWording(n)
      && (ProfanityWording(n) == Plural <==> CleanText(s, text).plural)
  {
  }

  // ---------------------------------------------------------------------
  // Security stamp

  /** `generate_security_hash`: salted HMAC over `content_type-object_pk-timestamp`. */
  function SecurityHash(c: Crypto, contentType: string, objectPk: string, timestamp: string): string
  {
    c.SaltedHmacHex(KeySalt, contentType + "-" + objectPk + "-" + timestamp)
  }

  /** `_generate_security_hash_old`: plain SHA-1 over the fields followed by the secret. */
  function LegacySecurityHash(c: Crypto, contentType: string, objectPk: string, timestamp: string): string
  {
    c.sha1Hex(contentType + objectPk + timestamp + c.secretKey)
  }

  /** `data.get(key, "")`. */
  function GetOrEmpty(data: map<string, string>, key: string): string
  {
    if key in data then data[key] else ""
  }

  /** `data.get(key)`. */
  function Get(data: map<string, string>, key: string): Option<string>
  {
    if key in data then Some(data[key]) else None
  }

  /**
   * `clean_security_hash`: the submitted hash is accepted iff it equals the
   * current or the legacy hash of the raw submitted content type, object key
   * and timestamp; it is returned unchanged.
   */
  function CleanSecurityHash(c: Crypto, data: map<string, string>, actual: string): (r: Result<string, FieldError>)
    ensures r.Success? <==>
      || actual == SecurityHash(c, GetOrEmpty(data, "content_type"), GetOrEmpty(data, "object_pk"), GetOrEmpty(data, "timestamp"))
      || actual == LegacySecurityHash(c, GetOrEmpty(data, "content_type"), GetOrEmpty(data, "object_pk"), GetOrEmpty(data, "timestamp"))
    ensures r.Success? ==> r.value == actual
    ensures r.Failure? ==> r.error == SecurityHashFailed
  {
    var ct, pk, ts := GetOrEmpty(data, "content_type"), GetOrEmpty(data, "object_pk"), GetOrEmpty(data, "timestamp");
    if actual == SecurityHash(c, ct, pk, ts) then Success(actual)
    else if actual == LegacySecurityHash(c, ct, pk, ts) then Success(actual)
    else Failure(SecurityHashFailed)
  }

  /** `clean_timestamp`: rejected iff more than two hours old at `now` (`time.time()`). */
  function CleanTimestamp(now: real, ts: int): (r: Result<int, FieldError>)
    ensures r.Failure? <==> now - ts as real > TimestampWindow as real
    ensures r.Success? ==> r.value == ts
    ensures r.Failure? ==> r.error == TimestampFailed
  {
    if now - ts as real > TimestampWindow as real then Failure(TimestampFailed) else Success(ts)
  }

  /** Once a timestamp has expired it stays expired. */
  lemma TimestampExpiryIsFinal(now: real, later: real, ts: int)
    requires now <= later && CleanTimestamp(now, ts).Failure?
    ensures CleanTimestamp(later, ts).Failure?
  {
  }

  /** `int(x)` of a float: truncation toward zero. */
  function Trunc(x: real): int
  {
    if x >= 0.0 then x.Floor else -((-x).Floor)
  }

  /**
   * `generate_security_data`: the hidden fields of a rendered form, stamped
   * with `int(time.time())`.
   */
  function SecurityData(c: Crypto, target: Target, now: real): map<string, string>
  {
    var ts := IntToString(Trunc(now));
    map[
      "content_type" := target.contentType,
      "object_pk" := PkText(target.pk),
      "timestamp" := ts,
      "security_hash" := SecurityHash(c, target.contentType, PkText(target.pk), ts)]
  }

  // ---------------------------------------------------------------------
  // Field cleaning

  /** The result of cleaning one field. */
  datatype FieldOutcome = Clean(value: string) | Invalid(error: FieldError) | Raises(exc: FormException)

  /**
   * `CharField.clean`: empty counts as missing; the length validators skip
   * empty values, and a non-empty value is accepted iff it is within the
   * bounds, the maximum being checked first.
   */
  function CleanChar(value: Option<string>, required: bool, minLength: nat, maxLength: Option<nat>): (r: Result<string, FieldError>)
    ensures r.Success? ==> r.value == (if value.Some? then value.value else "")
    ensures r.Success? && r.value != "" ==> |r.value| >= minLength && (maxLength.Some? ==> |r.value| <= maxLength.value)
    ensures r.Failure? && r.error == Required <==> required && (value.None? || value.value == "")
    ensures !required && (value.None? || value.value == "") ==> r == Success("")
    ensures value.Some? && value.value != "" ==>
      (r.Success? <==> |value.value| >= minLength && (maxLength.None? || |value.value| <= maxLength.value))
    ensures value.Some? && value.value != "" && maxLength.Some? && |value.value| > maxLength.value ==>
      r == Failure(TooLong(maxLength.value))
    ensures value.Some? && value.value != "" && (maxLength.None? || |value.value| <= maxLength.value) && |value.value| < minLength ==>
      r == Failure(TooShort(minLength))
  {
    var v := if value.Some? then value.value else "";
    if v == "" then (if required then Failure(Required) else Success(""))
    else if maxLength.Some? && |v| > maxLength.value then Failure(TooLong(maxLength.value))
    else if |v| < minLength then Failure(TooShort(minLength))
    else Success(v)
  }

  function FromChar(r: Result<string, FieldError>): FieldOutcome
  {
    if r.Success? then Clean(r.value) else Invalid(r.error)
  }

  /** The `timestamp` field: an IntegerField followed by `clean_timestamp`. */
  function CleanTimestampField(now: real, data: map<string, string>): FieldOutcome
  {
    var v := GetOrEmpty(data, "timestamp");
    if v == "" then Invalid(Required)
    else match ParseInt(v)
      case None => Invalid(InvalidNumber)
      case Some(ts) =>
        match CleanTimestamp(now, ts)
        case Success(_) => Clean(v)
        case Failure(e) => Invalid(e)
  }

  /** The `security_hash` field: exactly 40 characters, then `clean_security_hash`. */
  function CleanSecurityHashField(c: Crypto, data: map<string, string>): FieldOutcome
  {
    match CleanChar(Get(data, "security_hash"), true, 40, Some(40))
    case Failure(e) => Invalid(e)
    case Success(h) =>
      match CleanSecurityHash(c, data, h)
      case Success(v) => Clean(v)
      case Failure(e) => Invalid(e)
  }

  /** The `email` field. */
  function CleanEmailField(s: FormSettings, data: map<string, string>): FieldOutcome
  {
    match CleanChar(Get(data, "email"), true, 0, None)
    case Failure(e) => Invalid(e)
    case Success(v) => if s.isEmail(v) then Clean(v) else Invalid(InvalidEmail)
  }

  /** The `text` field: at most REVIEW_MAX_LENGTH characters, then `clean_text`. */
  function CleanTextField(s: FormSettings, data: map<string, string>): FieldOutcome
  {
    match CleanChar(Get(data, "text"), true, 0, Some(s.maxLength))
    case Failure(e) => Invalid(e)
    case Success(v) =>
      match CleanText(s, v)
      case TextOk(t) => Clean(t)
      case Profane(_, masked, plural) => Invalid(Profanity(masked, plural))
      case TextIndexError => Raises(IndexError)
  }

  /** The `category` field: the signed token decoded by `to_python`, at most 200 characters. */
  function CleanCategoryField(c: Crypto, data: map<string, string>): FieldOutcome
  {
    match Get(data, "category")
    case None => Raises(MissingToken)
    case Some(token) =>
      match ToPython(c, token)
      case Failure(e) => Raises(e)
      case Success(v) => FromChar(CleanChar(Some(v), true, 0, Some(200)))
  }

  /** The `honeypot` field: optional, and `clean_honeypot` rejects any content as spam. */
  function CleanHoneypotField(data: map<string, string>): (r: FieldOutcome)
    ensures r == Invalid(Spam) <==> GetOrEmpty(data, "honeypot") != ""
    ensures r != Invalid(Spam) ==> r == Clean("")
  {
    var v := GetOrEmpty(data, "honeypot");
    if v != "" then Invalid(Spam) else Clean(v)
  }

  /** The position of a field in the form's declaration. */
  function DeclarationIndex(f: FormField): nat
  {
    match f
    case ContentTypeField => 0 case ObjectPkField => 1 case TimestampField => 2
    case SecurityHashField => 3 case NameField => 4 case EmailField => 5
    case TextField => 6 case CategoryField => 7 case HoneypotField => 8
  }

  /** Fields listed at their declaration positions have distinct names. */
  lemma DeclarationOrderDistinct(fields: seq<(FormField, FieldOutcome)>)
    requires forall i :: 0 <= i < |fields| ==> DeclarationIndex(fields[i].0) == i
    ensures DistinctNames(fields)
  {
  }

  /** Every field of the review form, in declaration order. */
  function FieldOutcomes(s: FormSettings, c: Crypto, now: real, data: map<string, string>): (r: seq<(FormField, FieldOutcome)>)
    ensures |r| == 9 && DistinctNames(r)
    ensures r[0].0 == ContentTypeField && r[1].0 == ObjectPkField
    ensures r[2].0 == TimestampField && r[3].0 == SecurityHashField
    ensures r[4].0 == NameField && r[5].0 == EmailField && r[6].0 == TextField && r[7].0 == CategoryField
    ensures r[8].0 == HoneypotField
  {
    var r := FieldList(s, c, now, data);
    DeclarationOrderDistinct(r);
    r
  }

  /** The fields paired with their outcomes, at their declaration positions. */
  function FieldList(s: FormSettings, c: Crypto, now: real, data: map<string, string>): (r: seq<(FormField, FieldOutcome)>)
    ensures |r| == 9 && forall i :: 0 <= i < |r| ==> DeclarationIndex(r[i].0) == i
  {
    [ (ContentTypeField, FromChar(CleanChar(Get(data, "content_type"), true, 0, None))),
      (ObjectPkField, FromChar(CleanChar(Get(data, "object_pk"), true, 0, None))),
      (TimestampField, CleanTimestampField(now, data)),
      (SecurityHashField, CleanSecurityHashField(c, data)),
      (NameField, FromChar(CleanChar(Get(data, "name"), true, 0, Some(50)))),
      (EmailField, CleanEmailField(s, data)),
      (TextField, CleanTextField(s, data)),
      (CategoryField, CleanCategoryField(c, data)),
      (HoneypotField, CleanHoneypotField(data)) ]
  }

  predicate DistinctNames(fields: seq<(FormField, FieldOutcome)>)
  {
    forall i, j :: 0 <= i < j < |fields| ==> fields[i].0 != fields[j].0
  }

  /**
   * The error dictionary of a set of cleaned fields: the first exception, in
   * declaration order, aborts cleaning, otherwise every invalid field maps to its error.
   */
  function CollectErrors(fields: seq<(FormField, FieldOutcome)>): (r: Result<map<FormField, FieldError>, FormException>)
    requires DistinctNames(fields)
    ensures r.Success? <==> forall i :: 0 <= i < |fields| ==> !fields[i].1.Raises?
    ensures r.Failure? ==> exists i :: && 0 <= i < |fields| && fields[i].1 == Raises(r.error)
                                       && forall j :: 0 <= j < i ==> !fields[j].1.Raises?
    ensures r.Success? ==> forall i :: 0 <= i < |fields| && fields[i].1.Invalid? ==>
      fields[i].0 in r.value && r.value[fields[i].0] == fields[i].1.error
    ensures r.Success? ==> forall k :: k in r.value ==>
      exists i :: 0 <= i < |fields| && fields[i].0 == k && fields[i].1.Invalid?
  {
    if fields == [] then Success(map[])
    else if fields[0].1.Raises? then Failure(fields[0].1.exc)
    else
      match CollectErrors(fields[1..])
      case Failure(e) => Failure(e)
      case Success(m) =>
        var (name, outcome) := fields[0];
        Success(if outcome.Invalid? then m[name := outcome.error] else m)
  }

  /** `form.errors` of a bound review form. */
  function FormErrors(s: FormSettings, c: Crypto, now: real, data: map<string, string>): Result<map<FormField, FieldError>, FormException>
  {
    CollectErrors(FieldOutcomes(s, c, now, data))
  }

  /** A filled-in honeypot always yields a `honeypot` error, which is a security error. */
  lemma HoneypotAlwaysFlagged(s: FormSettings, c: Crypto, now: real, data: map<string, string>)
    requires GetOrEmpty(data, "honeypot") != ""
    requires FormErrors(s, c, now, data).Success?
    ensures HoneypotField in FormErrors(s, c, now, data).value
    ensures FormErrors(s, c, now, data).value[HoneypotField] == Spam
    ensures HoneypotField in SecurityFields
  {
    var fields := FieldOutcomes(s, c, now, data);
    assert fields[8] == (HoneypotField, Invalid(Spam));
  }

  /** A cleaned field is in the error dictionary exactly when it is invalid. */
  lemma CollectErrorsKey(fields: seq<(FormField, FieldOutcome)>, i: nat)
    requires DistinctNames(fields) && CollectErrors(fields).Success? && i < |fields|
    ensures fields[i].0 in CollectErrors(fields).value <==> fields[i].1.Invalid?
  {
    var errors := CollectErrors(fields).value;
    if fields[i].0 in errors {
      var j :| 0 <= j < |fields| && fields[j].0 == fields[i].0 && fields[j].1.Invalid?;
      assert j == i;
    }
  }

  /** A stamp's security hash, submitted with its content type, key and timestamp, is accepted. */
  lemma StampedHashAccepted(c: Crypto, data: map<string, string>, ct: string, pk: string, ts: string)
    requires c.Sound()
    requires GetOrEmpty(data, "content_type") == ct && GetOrEmpty(data, "object_pk") == pk
    requires GetOrEmpty(data, "timestamp") == ts
    requires Get(data, "security_hash") == Some(SecurityHash(c, ct, pk, ts))
    ensures CleanSecurityHashField(c, data).Clean?
  {
    assert |SecurityHash(c, ct, pk, ts)| == 40;
  }

  /** A stamped timestamp is accepted exactly while it is at most two hours old. */
  lemma StampedTimestamp(now: real, data: map<string, string>, ts: int)
    requires GetOrEmpty(data, "timestamp") == IntToString(ts)
    ensures CleanTimestampField(now, data).Clean? <==> now - ts as real <= TimestampWindow as real
    ensures !CleanTimestampField(now, data).Clean? ==> CleanTimestampField(now, data) == Invalid(TimestampFailed)
  {
    IntToStringRoundTrip(ts);
  }

  /** The fields of a stamp are clean; its timestamp only while it is at most two hours old. */
  lemma StampedFieldsClean(s: FormSettings, c: Crypto, now: real, data: map<string, string>,
                           ct: string, pk: string, ts: int)
    requires c.Sound() && ct != "" && pk != ""
    requires Get(data, "content_type") == Some(ct) && Get(data, "object_pk") == Some(pk)
    requires Get(data, "timestamp") == Some(IntToString(ts))
    requires Get(data, "security_hash") == Some(SecurityHash(c, ct, pk, IntToString(ts)))
    ensures var fields := FieldOutcomes(s, c, now, data);
      && fields[0].1.Clean? && fields[1].1.Clean? && fields[3].1.Clean?
      && (fields[2].1.Invalid? <==> now - ts as real > TimestampWindow as real)
  {
    StampedHashAccepted(c, data, ct, pk, IntToString(ts));
    StampedTimestamp(now, data, ts);
  }

  /**
   * The hidden fields a form renders pass their own checks when submitted:
   * the content type, object key and hash are accepted, and the timestamp is
   * accepted exactly while it is at most two hours old.
   */
  lemma GeneratedDataPasses(s: FormSettings, c: Crypto, rendered: real, now: real,
                            target: Target, rest: map<string, string>)
    requires c.Sound()
    requires target.contentType != "" && PkText(target.pk) != ""
    ensures var r := FormErrors(s, c, now, rest + SecurityData(c, target, rendered));
      r.Success? ==> var errors := r.value;
      && ContentTypeField !in errors && ObjectPkField !in errors && SecurityHashField !in errors
      && (TimestampField !in errors <==> now - Trunc(rendered) as real <= TimestampWindow as real)
  {
    var data := rest + SecurityData(c, target, rendered);
    SecurityDataSubmitted(c, target, rendered, rest);
    StampedFieldsClean(s, c, now, data, target.contentType, PkText(target.pk), Trunc(rendered));
    if FormErrors(s, c, now, data).Success? {
      StampNotInErrors(FieldOutcomes(s, c, now, data));
    }
  }

  /** Submitted data that includes a stamp carries the stamp's four values. */
  lemma SecurityDataSubmitted(c: Crypto, target: Target, rendered: real, rest: map<string, string>)
    ensures var data := rest + SecurityData(c, target, rendered);
      var ts := IntToString(Trunc(rendered));
      && Get(data, "content_type") == Some(target.contentType)
      && Get(data, "object_pk") == Some(PkText(target.pk))
      && Get(data, "timestamp") == Some(ts)
      && Get(data, "security_hash") == Some(SecurityHash(c, target.contentType, PkText(target.pk), ts))
  {
  }

  /** Clean stamp fields leave no entry in the error dictionary. */
  lemma StampNotInErrors(fields: seq<(FormField, FieldOutcome)>)
    requires DistinctNames(fields) && CollectErrors(fields).Success? && |fields| >= 4
    requires fields[0].0 == ContentTypeField && fields[1].0 == ObjectPkField
    requires fields[2].0 == TimestampField && fields[3].0 == SecurityHashField
    requires fields[0].1.Clean? && fields[1].1.Clean? && fields[3].1.Clean?
    ensures var errors := CollectErrors(fields).value;
      && ContentTypeField !in errors && ObjectPkField !in errors && SecurityHashField !in errors
      && (TimestampField in errors <==> fields[2].1.Invalid?)
  {
    CollectErrorsKey(fields, 0);
    CollectErrorsKey(fields, 1);
    CollectErrorsKey(fields, 2);
    CollectErrorsKey(fields, 3);
  }

  /**
   * `security_errors`: exactly the entries of the error dictionary under
   * `honeypot`, `timestamp` and `security_hash`.
   */
  method SecurityErrors(errors: map<FormField, FieldError>) returns (r: map<FormField, FieldError>)
    ensures r.Keys == errors.Keys * SecurityFields
    ensures forall f :: f in r ==> r[f] == errors[f]
  {
    r := map[];
    var names := [HoneypotField, TimestampField, SecurityHashField];
    for i := 0 to |names|
      invariant r.Keys == errors.Keys * (set k | k in names[..i])
      invariant forall f :: f in r ==> f in errors && r[f] == errors[f]
    {
      var f := names[i];
      if f in errors {
        r := r[f := errors[f]];
      }
      assert names[..i + 1] == names[..i] + [f];
    }
    assert names[..|names|] == names;
  }

  // ---------------------------------------------------------------------
  // The form object

  /** The part of a review form its constructor sets up. */
  class ReviewSecurityForm {
    const target: Target
    const data: Option<map<string, string>>
    const category: string
    var initial: map<string, string>

    /**
     * `__init__`: the initial dictionary (a fresh one when none is given)
     * receives the category and then the generated security data.
     */
    constructor (c: Crypto, now: real, target: Target, data: Option<map<string, string>>,
                 initial: Option<map<string, string>>, category: string)
      ensures this.target == target && this.data == data && this.category == category
      ensures this.initial == (if initial.Some? then initial.value else map[])["category" := category]
                              + SecurityData(c, target, now)
      ensures this.initial["category"] == category
    {
      this.target := target;
      this.data := data;
      this.category := category;
      var init := if initial.Some? then initial.value else map[];
      init := init["category" := category];
      init := init + SecurityData(c, target, now);
      this.initial := init;
    }
  }

  // ---------------------------------------------------------------------
  // Segment sub-forms

  /** The rows of `categories` with the given code. */
  function CategoriesWithCode(categories: seq<Category>, code: string): (r: seq<Category>)
    ensures forall x :: x in r <==> x in categories && x.code == code
  {
    if categories == [] then []
    else (if categories[0].code == code then [categories[0]] else []) + CategoriesWithCode(categories[1..], code)
  }

  /** The filter keeps each category with the code as often as it is listed, and no other. */
  lemma {:induction false} CategoriesWithCodeMultiplicity(categories: seq<Category>, code: string)
    ensures forall x ::
              multiset(CategoriesWithCode(categories, code))[x] == if x.code == code then multiset(categories)[x] else 0
  {
    if categories != [] {
      CategoriesWithCodeMultiplicity(categories[1..], code);
      assert categories == [categories[0]] + categories[1..];
    }
  }

  /** `Category.objects.get(code=code)`. */
  function CategoryByCode(categories: seq<Category>, code: string): (r: Result<Category, FormException>)
    ensures r.Success? ==> r.value in categories && r.value.code == code
    ensures r == Failure(DoesNotExist) <==> forall x :: x in categories ==> x.code != code
    ensures r.Failure? ==> r.error == DoesNotExist || r.error == MultipleObjectsReturned
    ensures r.Success? <==> |CategoriesWithCode(categories, code)| == 1
    ensures r.Success? ==> CategoriesWithCode(categories, code) == [r.value]
    ensures r == Failure(MultipleObjectsReturned) <==> |CategoriesWithCode(categories, code)| > 1
  {
    var found := CategoriesWithCode(categories, code);
    if |found| == 0 then Failure(DoesNotExist)
    else if |found| > 1 then
      assert found[0] in found;
      Failure(MultipleObjectsReturned)
    else Success(found[0])
  }

  /** `category.categorysegment_set`: the segments belonging to a category. */
  function SegmentsOf(segments: seq<CategorySegment>, category: int): (r: seq<CategorySegment>)
    ensures forall x :: x in r <==> x in segments && x.category == category
    ensures multiset(r) <= multiset(segments)
  {
    if segments == [] then []
    else
      assert segments == [segments[0]] + segments[1..];
      (if segments[0].category == category then [segments[0]] else []) + SegmentsOf(segments[1..], category)
  }

  predicate SortedByPosition(s: seq<CategorySegment>)
  {
    forall i, j :: 0 <= i < j < |s| ==> s[i].position <= s[j].position
  }

  /** Inserts `x` before the first element whose position is not smaller. */
  function InsertByPosition(x: CategorySegment, s: seq<CategorySegment>): (r: seq<CategorySegment>)
    ensures |r| == |s| + 1
    ensures r[0] == x || (s != [] && r[0] == s[0])
  {
    if s == [] || x.position <= s[0].position then [x] + s
    else [s[0]] + InsertByPosition(x, s[1..])
  }

  /** `order_by('position')`, modelled by insertion sort. */
  function SortByPosition(s: seq<CategorySegment>): seq<CategorySegment>
  {
    if s == [] then [] else InsertByPosition(s[0], SortByPosition(s[1..]))
  }

  /** Inserting adds exactly `x`. */
  lemma {:induction false} InsertByPositionPermutes(x: CategorySegment, s: seq<CategorySegment>)
    ensures multiset(InsertByPosition(x, s)) == multiset(s) + multiset{x}
  {
    if s != [] && x.position > s[0].position {
      InsertByPositionPermutes(x, s[1..]);
      assert s == [s[0]] + s[1..];
    }
  }

  /** Inserting into a sorted sequence keeps it sorted. */
  lemma {:induction false} InsertByPositionCorrect(x: CategorySegment, s: seq<CategorySegment>)
    requires SortedByPosition(s)
    ensures SortedByPosition(InsertByPosition(x, s))
    ensures multiset(InsertByPosition(x, s)) == multiset(s) + multiset{x}
  {
    InsertByPositionPermutes(x, s);
    if s != [] && x.position > s[0].position {
      InsertByPositionCorrect(x, s[1..]);
      var rest := InsertByPosition(x, s[1..]);
      assert s[0].position <= rest[0].position;
      assert forall j :: 0 <= j < |rest| ==> rest[0].position <= rest[j].position;
    }
  }

  /** The segments ordered by position, and a permutation of the input. */
  lemma {:induction false} SortByPositionCorrect(s: seq<CategorySegment>)
    ensures SortedByPosition(SortByPosition(s))
    ensures multiset(SortByPosition(s)) == multiset(s)
    ensures |SortByPosition(s)| == |s|
  {
    if s != [] {
      var rest := SortByPosition(s[1..]);
      SortByPositionCorrect(s[1..]);
      InsertByPositionCorrect(s[0], rest);
      MultisetOfCons(s);
      assert SortByPosition(s) == InsertByPosition(s[0], rest);
    }
  }

  lemma MultisetOfCons(s: seq<CategorySegment>)
    requires s != []
    ensures multiset(s) == multiset(s[1..]) + multiset{s[0]}
  {
    assert s == [s[0]] + s[1..];
  }

  /** The initial data of one segment sub-form. */
  datatype InitialEntry = InitialEntry(segmentPk: int, text: string)

  /**
   * `get_segment_formset`: one initial entry per segment of the form's
   * category, in ascending position, each with empty text.
   */
  method GetSegmentFormset(categories: seq<Category>, segments: seq<CategorySegment>, code: string)
    returns (r: Result<seq<InitialEntry>, FormException>)
    ensures CategoryByCode(categories, code).Failure? ==> r == Failure(CategoryByCode(categories, code).error)
    ensures CategoryByCode(categories, code).Success? ==>
      var ordered := SortByPosition(SegmentsOf(segments, CategoryByCode(categories, code).value.id));
      && r.Success? && |r.value| == |ordered|
      && forall i :: 0 <= i < |ordered| ==> r.value[i] == InitialEntry(ordered[i].id, "")
  {
    var cat := CategoryByCode(categories, code);
    if cat.Failure? {
      return Failure(cat.error);
    }
    var ordered := SortByPosition(SegmentsOf(segments, cat.value.id));
    var initial: seq<InitialEntry> := [];
    for i := 0 to |ordered|
      invariant |initial| == i
      invariant forall k :: 0 <= k < i ==> initial[k] == InitialEntry(ordered[k].id, "")
    {
      initial := initial + [InitialEntry(ordered[i].id, "")];
    }
    r := Success(initial);
  }

  /**
   * The sub-form list covers the category's segments exactly once each, in
   * ascending position.
   */
  lemma SegmentFormsetOrdered(segments: seq<CategorySegment>, category: int)
    ensures var ordered := SortByPosition(SegmentsOf(segments, category));
      && SortedByPosition(ordered)
      && multiset(ordered) == multiset(SegmentsOf(segments, category))
      && (forall x :: x in ordered <==> x in segments && x.category == category)
  {
    var own := SegmentsOf(segments, category);
    SortByPositionCorrect(own);
    var ordered := SortByPosition(own);
    forall x ensures x in ordered <==> x in own {
      assert x in ordered <==> x in multiset(ordered);
      assert x in own <==> x in multiset(own);
    }
  }

  /**
   * `get_segment_formset` as written: the CategorySegment model declares no
   * `position` field, so `order_by('position')` raises FieldError for every
   * category that exists.
   */
  function GetSegmentFormsetAsWritten(categories: seq<Category>, segments: seq<CategorySegment>, code: string)
    : (r: Result<seq<InitialEntry>, FormException>)
    ensures CategoryByCode(categories, code).Success? ==> r == Failure(FieldError)
    ensures CategoryByCode(categories, code).Failure? ==> r == Failure(CategoryByCode(categories, code).error)
  {
    match CategoryByCode(categories, code)
    case Failure(e) => Failure(e)
    case Success(_) => Failure(FieldError)
  }

  /** For a category with segments, the code as written never builds the sub-forms. */
  lemma SegmentFormsetAsWrittenFails()
    ensures var cats := [Category(1, "service")];
      var segs := [CategorySegment(10, "cleanliness", 0, 1), CategorySegment(11, "speed", 1, 1)];
      && GetSegmentFormsetAsWritten(cats, segs, "service") == Failure(FieldError)
      && CategoryByCode(cats, "service") == Success(Category(1, "service"))
      && |SortByPosition(SegmentsOf(segs, 1))| == 2
  {
    var cats := [Category(1, "service")];
    assert CategoriesWithCode(cats[1..], "service") == [];
    assert CategoriesWithCode(cats, "service") == [Category(1, "service")];
    var segs := [CategorySegment(10, "cleanliness", 0, 1), CategorySegment(11, "speed", 1, 1)];
    assert SegmentsOf(segs[2..], 1) == [];
    assert SegmentsOf(segs[1..], 1) == segs[1..];
    assert SegmentsOf(segs, 1) == segs;
    SortByPositionCorrect(segs);
  }

  // ---------------------------------------------------------------------
  // Creating the review

  /** The cleaned values the review is built from. */
  datatype CleanedData = CleanedData(name: string, email: string, text: string, category: string)

  /**
   * `get_review_create_data`: a new, public, not removed review of the target,
   * dated now, by the named author, in the category with the cleaned code.
   */
  function ReviewCreateData(target: Target, cleaned: CleanedData, categories: seq<Category>,
                            now: DateTime, siteId: int): (r: Result<ReviewData, FormException>)
    ensures r.Failure? <==> CategoryByCode(categories, cleaned.category).Failure?
    ensures r.Success? ==>
      && r.value.id.None? && r.value.user.None? && r.value.ipAddress.None?
      && r.value.isPublic && !r.value.isRemoved
      && r.value.submitDate == Some(now) && r.value.siteId == siteId
      && r.value.contentType == target.contentType && r.value.objectPk == PkText(target.pk)
      && r.value.userName == cleaned.name && r.value.userEmail == cleaned.email
      && r.value.text == cleaned.text && r.value.category.code == cleaned.category
      && r.value.category in categories
  {
    match CategoryByCode(categories, cleaned.category)
    case Failure(e) => Failure(e)
    case Success(cat) =>
      Success(ReviewData(None, target.contentType, PkText(target.pk), siteId, None,
                         cleaned.name, cleaned.email, cleaned.text, Some(now), None, true, false, cat))
  }

  /** Same target object and same author name and e-mail (the duplicate query). */
  predicate SameAuthorAndTarget(prior: ReviewData, review: ReviewData)
  {
    && prior.contentType == review.contentType && prior.objectPk == review.objectPk
    && prior.userName == review.userName && prior.userEmail == review.userEmail
  }

  /** A stored review duplicates a new one: same target and author, same day, same text. */
  predicate IsDuplicate(prior: ReviewData, review: ReviewData)
    requires prior.submitDate.Some? && review.submitDate.Some?
  {
    SameAuthorAndTarget(prior, review) && prior.submitDate.value.day == review.submitDate.value.day && prior.text == review.text
  }

  predicate SameDay(prior: ReviewData, review: ReviewData)
    requires prior.submitDate.Some? && review.submitDate.Some?
  {
    prior.submitDate.value.day == review.submitDate.value.day
  }

  predicate AllDated(rows: seq<ReviewData>)
  {
    forall k :: 0 <= k < |rows| ==> rows[k].submitDate.Some?
  }

  /** The index of the first duplicate of `review` among `rows`. */
  function FirstDuplicate(rows: seq<ReviewData>, review: ReviewData): (r: Option<nat>)
    requires AllDated(rows) && review.submitDate.Some?
    ensures r.Some? ==> r.value < |rows| && IsDuplicate(rows[r.value], review)
    ensures r.Some? ==> forall j :: 0 <= j < r.value ==> !IsDuplicate(rows[j], review)
    ensures r.None? ==> forall j :: 0 <= j < |rows| ==> !IsDuplicate(rows[j], review)
  {
    if rows == [] then None
    else if IsDuplicate(rows[0], review) then Some(0)
    else match FirstDuplicate(rows[1..], review)
      case None => None
      case Some(i) => Some(i + 1)
  }

  /** The rows of a dated table, in submission-date order, are dated. */
  lemma SortedRowsDated(rows: seq<ReviewData>)
    requires AllDated(rows)
    ensures AllDated(SortBySubmitDate(rows)) && SortedBySubmitDate(SortBySubmitDate(rows))
    ensures forall x :: x in SortBySubmitDate(rows) <==> x in rows
  {
    SortBySubmitDateCorrect(rows);
    var ordered := SortBySubmitDate(rows);
    forall k | 0 <= k < |ordered| ensures ordered[k].submitDate.Some? {
      assert ordered[k] in rows;
    }
  }

  /**
   * The review `check_for_duplicate_review` finds: the candidates of the
   * duplicate query come in submission-date order (`Review.Meta.ordering`),
   * and the first one from the same day with the same text is returned.
   * It is the earliest duplicate of the new review.
   */
  function DuplicateOf(rows: seq<ReviewData>, review: ReviewData): (r: Option<ReviewData>)
    requires AllDated(rows) && review.submitDate.Some?
    ensures r.Some? ==> r.value in rows && IsDuplicate(r.value, review)
    ensures r.Some? ==> forall k :: 0 <= k < |rows| && IsDuplicate(rows[k], review) ==> NotLater(r.value, rows[k])
    ensures r.None? <==> forall k :: 0 <= k < |rows| ==> !IsDuplicate(rows[k], review)
  {
    FirstDuplicateInOrder(rows, review);
    var ordered := SortBySubmitDate(rows);
    match FirstDuplicate(ordered, review)
    case None => None
    case Some(i) => Some(ordered[i])
  }

  /**
   * The first duplicate of the date-ordered rows is a row, no later than
   * any other duplicate; there is none iff no row is a duplicate.
   */
  lemma FirstDuplicateInOrder(rows: seq<ReviewData>, review: ReviewData)
    requires AllDated(rows) && review.submitDate.Some?
    ensures AllDated(SortBySubmitDate(rows))
    ensures var ordered := SortBySubmitDate(rows);
      var f := FirstDuplicate(ordered, review);
      && (f.None? <==> forall k :: 0 <= k < |rows| ==> !IsDuplicate(rows[k], review))
      && (f.Some? ==> ordered[f.value] in rows && IsDuplicate(ordered[f.value], review))
      && (f.Some? ==> forall k :: 0 <= k < |rows| && IsDuplicate(rows[k], review) ==> NotLater(ordered[f.value], rows[k]))
  {
    SortedRowsDated(rows);
    FirstDuplicateOfPermutation(rows, SortBySubmitDate(rows), review);
  }

  lemma FirstDuplicateOfPermutation(rows: seq<ReviewData>, ordered: seq<ReviewData>, review: ReviewData)
    requires AllDated(rows) && AllDated(ordered) && review.submitDate.Some?
    requires SortedBySubmitDate(ordered)
    requires forall x :: x in ordered <==> x in rows
    ensures var f := FirstDuplicate(ordered, review);
      && (f.None? <==> forall k :: 0 <= k < |rows| ==> !IsDuplicate(rows[k], review))
      && (f.Some? ==> ordered[f.value] in rows && IsDuplicate(ordered[f.value], review))
      && (f.Some? ==> forall k :: 0 <= k < |rows| && IsDuplicate(rows[k], review) ==> NotLater(ordered[f.value], rows[k]))
  {
    var f := FirstDuplicate(ordered, review);
    if f.None? {
      NoDuplicateInPermutation(rows, ordered, review);
    } else {
      EarliestDuplicate(rows, ordered, review, f.value);
      assert ordered[f.value] in rows;
      var k :| 0 <= k < |rows| && rows[k] == ordered[f.value];
      assert IsDuplicate(rows[k], review);
    }
  }

  /** Rows with the same elements have the same duplicates. */
  lemma NoDuplicateInPermutation(rows: seq<ReviewData>, ordered: seq<ReviewData>, review: ReviewData)
    requires AllDated(rows) && AllDated(ordered) && review.submitDate.Some?
    requires forall x :: x in ordered <==> x in rows
    requires forall j :: 0 <= j < |ordered| ==> !IsDuplicate(ordered[j], review)
    ensures forall k :: 0 <= k < |rows| ==> !IsDuplicate(rows[k], review)
  {
    forall k | 0 <= k < |rows| ensures !IsDuplicate(rows[k], review) {
      assert rows[k] in ordered;
    }
  }

  /** The first duplicate in a date-ordered permutation of the rows is no later than any duplicate. */
  lemma EarliestDuplicate(rows: seq<ReviewData>, ordered: seq<ReviewData>, review: ReviewData, i: nat)
    requires AllDated(rows) && AllDated(ordered) && review.submitDate.Some?
    requires SortedBySubmitDate(ordered)
    requires forall x :: x in ordered <==> x in rows
    requires i < |ordered| && IsDuplicate(ordered[i], review)
    requires forall j :: 0 <= j < i ==> !IsDuplicate(ordered[j], review)
    ensures forall k :: 0 <= k < |rows| && IsDuplicate(rows[k], review) ==> NotLater(ordered[i], rows[k])
  {
    forall k | 0 <= k < |rows| && IsDuplicate(rows[k], review) ensures NotLater(ordered[i], rows[k]) {
      assert rows[k] in ordered;
      var j :| 0 <= j < |ordered| && ordered[j] == rows[k];
      if j > i {
        assert NotLater(ordered[i], ordered[j]);
      }
    }
  }

  /**
   * `check_for_duplicate_review`: runs through the stored reviews in
   * submission-date order and returns the first of the same target and
   * author from the same day with the same text, or the new review itself.
   */
  method CheckForDuplicateReview(rows: seq<ReviewData>, review: ReviewData) returns (r: ReviewData)
    requires AllDated(rows) && review.submitDate.Some?
    ensures DuplicateOf(rows, review).Some? ==> r == DuplicateOf(rows, review).value
    ensures DuplicateOf(rows, review).None? ==> r == review
  {
    SortedRowsDated(rows);
    var candidates := SortBySubmitDate(rows);
    for i := 0 to |candidates|
      invariant forall j :: 0 <= j < i ==> !IsDuplicate(candidates[j], review)
    {
      var prior := candidates[i];
      if SameAuthorAndTarget(prior, review) {
        if prior.submitDate.value.day == review.submitDate.value.day && prior.text == review.text {
          assert FirstDuplicate(candidates, review) == Some(i) by { FirstDuplicateIs(candidates, review, i); }
          return prior;
        }
      }
    }
    assert FirstDuplicate(candidates, review).None?;
    return review;
  }

  /** The first index satisfying the duplicate test is the one `FirstDuplicate` finds. */
  lemma {:induction false} FirstDuplicateIs(rows: seq<ReviewData>, review: ReviewData, i: nat)
    requires AllDated(rows) && review.submitDate.Some?
    requires i < |rows| && IsDuplicate(rows[i], review)
    requires forall j :: 0 <= j < i ==> !IsDuplicate(rows[j], review)
    ensures FirstDuplicate(rows, review) == Some(i)
  {
    if i > 0 {
      FirstDuplicateIs(rows[1..], review, i - 1);
    }
  }

  /**
   * Posting the same review again on the same day finds the stored review,
   * which already has an id, so saving it again inserts no new row.
   */
  lemma DuplicateResolvesToStoredRow(store: Store, review: ReviewData, k: nat)
    requires StoreValid(store) && review.submitDate.Some?
    requires k < |store.reviews| && IsDuplicate(store.reviews[k], review)
    ensures DuplicateOf(store.reviews, review).Some?
    ensures DuplicateOf(store.reviews, review).value in store.reviews
    ensures DuplicateOf(store.reviews, review).value.id.Some?
    ensures NotLater(DuplicateOf(store.reviews, review).value, store.reviews[k])
  {
    var d := DuplicateOf(store.reviews, review).value;
    var i :| 0 <= i < |store.reviews| && store.reviews[i] == d;
  }

  /**
   * `check_for_duplicate_review` as written: it compares `old.review`, an
   * attribute a Review does not have, so the comparison raises AttributeError
   * as soon as a candidate from the same day is reached.
   */
  function CheckForDuplicateAsWritten(rows: seq<ReviewData>, review: ReviewData): (r: Result<ReviewData, FormException>)
    requires AllDated(rows) && review.submitDate.Some?
    ensures r.Failure? <==>
      exists i :: 0 <= i < |rows| && SameAuthorAndTarget(rows[i], review) && SameDay(rows[i], review)
    ensures r.Failure? ==> r.error == AttributeError
    ensures r.Success? ==> r.value == review
  {
    if rows == [] then Success(review)
    else if SameAuthorAndTarget(rows[0], review) && SameDay(rows[0], review) then
      Failure(AttributeError)
    else CheckForDuplicateAsWritten(rows[1..], review)
  }

  /** A genuine same-day duplicate crashes the code as written instead of being suppressed. */
  lemma DuplicateCheckAsWrittenRaises(prior: ReviewData, review: ReviewData)
    requires prior.submitDate.Some? && review.submitDate.Some? && IsDuplicate(prior, review)
    ensures CheckForDuplicateAsWritten([prior], review) == Failure(AttributeError)
    ensures DuplicateOf([prior], review) == Some(prior)
  {
    assert SameAuthorAndTarget([prior][0], review);
    assert SortBySubmitDate([prior]) == [prior];
  }

  /**
   * `get_review_object`: only for a valid form (ValueError otherwise); the
   * new review, or the stored duplicate it repeats.
   */
  method GetReviewObject(valid: bool, target: Target, cleaned: CleanedData, categories: seq<Category>,
                         now: DateTime, siteId: int, rows: seq<ReviewData>)
    returns (r: Result<ReviewData, FormException>)
    requires AllDated(rows)
    ensures !valid ==> r == Failure(ValueError)
    ensures valid ==> var created := ReviewCreateData(target, cleaned, categories, now, siteId);
      && (created.Failure? ==> r == Failure(created.error))
      && (created.Success? && DuplicateOf(rows, created.value).None? ==> r == created)
      && (created.Success? && DuplicateOf(rows, created.value).Some? ==>
            r == Success(DuplicateOf(rows, created.value).value))
  {
    if !valid {
      return Failure(ValueError);
    }
    var created := ReviewCreateData(target, cleaned, categories, now, siteId);
    if created.Failure? {
      return Failure(created.error);
    }
    var review := CheckForDuplicateReview(rows, created.value);
    r := Success(review);
  }

  /**
   * `get_review_object` as written: `ReviewModel(**get_review_create_data())`
   * passes `category=`, but the Review model declares no `category` field,
   * so the constructor raises TypeError for every valid form whose category
   * code resolves.
   */
  function GetReviewObjectAsWritten(valid: bool, target: Target, cleaned: CleanedData, categories: seq<Category>,
                                    now: DateTime, siteId: int): (r: Result<ReviewData, FormException>)
    ensures r.Failure?
    ensures !valid ==> r.error == ValueError
    ensures valid && CategoryByCode(categories, cleaned.category).Failure? ==>
      r.error == CategoryByCode(categories, cleaned.category).error
    ensures valid && CategoryByCode(categories, cleaned.category).Success? ==> r.error == TypeError
  {
    if !valid then Failure(ValueError)
    else
      match ReviewCreateData(target, cleaned, categories, now, siteId)
      case Failure(e) => Failure(e)
      case Success(_) => Failure(TypeError)
  }

  /**
   * Where the code as written raises TypeError the corrected form builds a
   * review in the category with the submitted code.
   */
  lemma ReviewObjectAsWrittenRaises(target: Target, cleaned: CleanedData, categories: seq<Category>,
                                    now: DateTime, siteId: int)
    requires CategoryByCode(categories, cleaned.category).Success?
    ensures GetReviewObjectAsWritten(true, target, cleaned, categories, now, siteId) == Failure(TypeError)
    ensures var created := ReviewCreateData(target, cleaned, categories, now, siteId);
      created.Success? && created.value.category == CategoryByCode(categories, cleaned.category).value
  {
  }
}
