/**
 * The persistent entities of the review application: categories and their
 * ordered segments, reviews, review segments and moderation flags.
 *
 * Rows of the database are values (`ReviewData`, `SegmentData`, `FlagData`)
 * held in a `Store`; the in-memory model instances whose `save` changes them
 * in place (`Review`, `ReviewFlag`) are classes.
 */
module Models {
  import opened Wrappers
  import opened Text

  /** A `datetime`; `.date()` is its day number. */
  datatype DateTime = DateTime(day: int, second: int)

  /** An account of the host's authentication system; `fullName` is `get_full_name()`. */
  datatype User = User(id: int, username: string, fullName: string, email: string)

  datatype Category = Category(id: int, code: string)

  /** A rated aspect of a category; `position` orders the segments of one category. */
  datatype CategorySegment = CategorySegment(id: int, title: string, position: int, category: int)

  /** The primary key of a host object: `None`, an integer or a string. */
  datatype Pk = NoPk | IntPk(n: int) | StrPk(s: string)

  /** Python truthiness of a primary key. */
  predicate PkTruthy(pk: Pk)
  {
    match pk
    case NoPk => false
    case IntPk(n) => n != 0
    case StrPk(s) => s != ""
  }

  /** `str(pk)` (also `force_unicode(pk)` and `smart_unicode(pk)`). */
  function PkText(pk: Pk): string
  {
    match pk
    case NoPk => "None"
    case IntPk(n) => IntToString(n)
    case StrPk(s) => s
  }

  /**
   * A host object that can be reviewed: its content type, written as the
   * `app_label.model` descriptor, and its primary key.
   */
  datatype Target = Target(contentType: string, pk: Pk)

  /** `str(id)` of a possibly unsaved row: `"None"` before the first save. */
  function IdText(id: Option<int>): string
  {
    if id.Some? then IntToString(id.value) else "None"
  }

  /** The id of a saved row parses back from its text. */
  lemma IdTextRoundTrip(id: Option<int>)
    ensures id.Some? ==> ParseInt(IdText(id)) == id
  {
    if id.Some? {
      IntToStringRoundTrip(id.value);
    }
  }

  /** One row of the review table. */
  datatype ReviewData = ReviewData(
    id: Option<int>,
    contentType: string,
    objectPk: string,
    siteId: int,
    user: Option<User>,
    userName: string,
    userEmail: string,
    text: string,
    submitDate: Option<DateTime>,
    ipAddress: Option<string>,
    isPublic: bool,
    isRemoved: bool,
    category: Category)

  /** One row of the review-segment table; `segment` is a CategorySegment id. */
  datatype SegmentData = SegmentData(id: Option<int>, review: Option<int>, rating: int, text: string, segment: int)

  /** One row of the flag table; `user` and `review` are ids. */
  datatype FlagData = FlagData(id: Option<int>, user: int, review: int, flag: string, flagDate: Option<DateTime>)

  const SuggestRemoval := "removal suggestion"
  const ModeratorDeletion := "moderator deletion"
  const ModeratorApproval := "moderator approval"

  /** The database tables this application writes, with their next auto-increment ids. */
  datatype Store = Store(
    reviews: seq<ReviewData>,
    segments: seq<SegmentData>,
    flags: seq<FlagData>,
    nextReviewId: int,
    nextSegmentId: int,
    nextFlagId: int)

  /** The author's name and e-mail as `Review.userinfo` reports them. */
  datatype UserInfo = UserInfo(name: string, email: string)

  // ---------------------------------------------------------------------
  // Rows and saving

  /** Some row of `rows` has the id `id`. */
  predicate HasId<T>(rows: seq<T>, idOf: T -> Option<int>, id: Option<int>)
  {
    exists i :: 0 <= i < |rows| && idOf(rows[i]) == id
  }

  /**
   * The ORM's `save()` of a row that already has a primary key: UPDATE the
   * row with that key if there is one, INSERT it otherwise.
   */
  function Upsert<T>(rows: seq<T>, idOf: T -> Option<int>, row: T): (r: seq<T>)
    ensures WrittenById(rows, r, idOf, row)
  {
    if HasId(rows, idOf, idOf(row)) then
      seq(|rows|, i requires 0 <= i < |rows| => if idOf(rows[i]) == idOf(row) then row else rows[i])
    else rows + [row]
  }

  /**
   * `after` is the table `before` once `row` is written by its id: the row
   * with that id is replaced in place, or `row` is appended when no row has
   * it; every other row is kept, in its place.
   */
  ghost predicate WrittenById<T>(before: seq<T>, after: seq<T>, idOf: T -> Option<int>, row: T)
  {
    if HasId(before, idOf, idOf(row)) then
      && |after| == |before|
      && forall i :: 0 <= i < |before| ==> after[i] == if idOf(before[i]) == idOf(row) then row else before[i]
    else after == before + [row]
  }

  function Max(a: int, b: int): int
  {
    if a < b then b else a
  }

  function ReviewId(r: ReviewData): Option<int> { r.id }
  function SegmentId(s: SegmentData): Option<int> { s.id }
  function FlagId(f: FlagData): Option<int> { f.id }

  /** Ids of the rows are all set, pairwise distinct and below the next id. */
  ghost predicate IdsValid<T>(rows: seq<T>, idOf: T -> Option<int>, next: int)
  {
    && (forall i :: 0 <= i < |rows| ==> idOf(rows[i]).Some? && idOf(rows[i]).value < next)
    && (forall i, j :: 0 <= i < j < |rows| ==> idOf(rows[i]) != idOf(rows[j]))
  }

  /** Each user raises a given flag on a given review at most once (unique_together). */
  ghost predicate FlagsUnique(flags: seq<FlagData>)
  {
    forall i, j :: 0 <= i < j < |flags| ==>
      (flags[i].user, flags[i].review, flags[i].flag) != (flags[j].user, flags[j].review, flags[j].flag)
  }

  /** What the database guarantees of its tables. */
  ghost predicate StoreValid(s: Store)
  {
    && IdsValid(s.reviews, ReviewId, s.nextReviewId)
    && (forall i :: 0 <= i < |s.reviews| ==> s.reviews[i].submitDate.Some?)
    && IdsValid(s.segments, SegmentId, s.nextSegmentId)
    && IdsValid(s.flags, FlagId, s.nextFlagId)
    && FlagsUnique(s.flags)
  }

  /** An empty database. */
  lemma EmptyStoreValid()
    ensures StoreValid(Store([], [], [], 1, 1, 1))
  {
  }

  /** Writes `row` (which has an id) with update-or-insert semantics. */
  function PutWithId<T>(rows: seq<T>, idOf: T -> Option<int>, next: int, row: T): (res: (seq<T>, int))
    requires idOf(row).Some?
  {
    (Upsert(rows, idOf, row), Max(next, idOf(row).value + 1))
  }

  /** Replacing rows by id or appending a fresh id keeps the ids valid. */
  lemma {:induction false} PutWithIdValid<T>(rows: seq<T>, idOf: T -> Option<int>, next: int, row: T)
    requires IdsValid(rows, idOf, next) && idOf(row).Some?
    ensures IdsValid(PutWithId(rows, idOf, next, row).0, idOf, PutWithId(rows, idOf, next, row).1)
    ensures row in PutWithId(rows, idOf, next, row).0
  {
    var r := PutWithId(rows, idOf, next, row).0;
    var n := PutWithId(rows, idOf, next, row).1;
    if HasId(rows, idOf, idOf(row)) {
      var k :| 0 <= k < |rows| && idOf(rows[k]) == idOf(row);
      assert r[k] == row;
      forall i, j | 0 <= i < j < |r| ensures idOf(r[i]) != idOf(r[j]) {
        if idOf(rows[i]) == idOf(row) {
          assert idOf(rows[j]) != idOf(row);
        }
      }
    } else {
      assert r[|rows|] == row;
    }
  }

  /**
   * `save()` of a review row: fill `submit_date` when it is `None`, then
   * INSERT with a fresh id if the row has none, UPDATE-or-INSERT otherwise.
   * Returns the new store and the row as saved.
   */
  function SaveReviewRow(store: Store, row: ReviewData, now: DateTime): (res: (Store, ReviewData))
    ensures res.1.submitDate == if row.submitDate.None? then Some(now) else row.submitDate
    ensures res.1.id.Some? && (row.id.Some? ==> res.1.id == row.id)
    ensures res.1 == row.(submitDate := res.1.submitDate, id := res.1.id)
    ensures row.id.None? ==> res.0.reviews == store.reviews + [res.1] && res.0.nextReviewId == store.nextReviewId + 1
    ensures row.id.Some? ==>
      WrittenById(store.reviews, res.0.reviews, ReviewId, res.1) && res.0.nextReviewId == Max(store.nextReviewId, row.id.value + 1)
    ensures res.0.segments == store.segments && res.0.flags == store.flags
    ensures res.0.nextSegmentId == store.nextSegmentId && res.0.nextFlagId == store.nextFlagId
  {
    var dated := if row.submitDate.None? then row.(submitDate := Some(now)) else row;
    if dated.id.None? then
      var saved := dated.(id := Some(store.nextReviewId));
      (store.(reviews := store.reviews + [saved], nextReviewId := store.nextReviewId + 1), saved)
    else
      var put := PutWithId(store.reviews, ReviewId, store.nextReviewId, dated);
      (store.(reviews := put.0, nextReviewId := put.1), dated)
  }

  /** Saving a review keeps the database consistent and stores the saved row. */
  lemma SaveReviewRowValid(store: Store, row: ReviewData, now: DateTime)
    requires StoreValid(store)
    ensures StoreValid(SaveReviewRow(store, row, now).0)
    ensures SaveReviewRow(store, row, now).1 in SaveReviewRow(store, row, now).0.reviews
  {
    var dated := if row.submitDate.None? then row.(submitDate := Some(now)) else row;
    if dated.id.Some? {
      PutWithIdValid(store.reviews, ReviewId, store.nextReviewId, dated);
      var r := PutWithId(store.reviews, ReviewId, store.nextReviewId, dated).0;
      forall i | 0 <= i < |r| ensures r[i].submitDate.Some? {
        if !HasId(store.reviews, ReviewId, dated.id) && i == |store.reviews| {
          assert r[i] == dated;
        }
      }
    }
  }

  /** `save()` of a review-segment row: INSERT with a fresh id, or UPDATE-or-INSERT. */
  function SaveSegmentRow(store: Store, seg: SegmentData): (res: (Store, SegmentData))
    ensures res.1.id.Some? && (seg.id.Some? ==> res.1.id == seg.id)
    ensures res.1 == seg.(id := res.1.id)
    ensures seg.id.None? ==> res.0.segments == store.segments + [res.1] && res.0.nextSegmentId == store.nextSegmentId + 1
    ensures seg.id.Some? ==>
      WrittenById(store.segments, res.0.segments, SegmentId, res.1) && res.0.nextSegmentId == Max(store.nextSegmentId, seg.id.value + 1)
    ensures res.0.reviews == store.reviews && res.0.flags == store.flags
    ensures res.0.nextReviewId == store.nextReviewId && res.0.nextFlagId == store.nextFlagId
  {
    if seg.id.None? then
      var saved := seg.(id := Some(store.nextSegmentId));
      (store.(segments := store.segments + [saved], nextSegmentId := store.nextSegmentId + 1), saved)
    else
      var put := PutWithId(store.segments, SegmentId, store.nextSegmentId, seg);
      (store.(segments := put.0, nextSegmentId := put.1), seg)
  }

  lemma SaveSegmentRowValid(store: Store, seg: SegmentData)
    requires StoreValid(store)
    ensures StoreValid(SaveSegmentRow(store, seg).0)
    ensures SaveSegmentRow(store, seg).1 in SaveSegmentRow(store, seg).0.segments
  {
    if seg.id.Some? {
      PutWithIdValid(store.segments, SegmentId, store.nextSegmentId, seg);
    }
  }

  /** Another stored flag (a different row) already has the same (user, review, flag). */
  predicate FlagConflict(flags: seq<FlagData>, row: FlagData)
  {
    exists i :: 0 <= i < |flags| && flags[i].id != row.id
      && flags[i].user == row.user && flags[i].review == row.review && flags[i].flag == row.flag
  }

  /**
   * The database side of `ReviewFlag.save()`: the unique constraint on
   * (user, review, flag) refuses a conflicting row with an IntegrityError
   * (`None`, store unchanged); otherwise the row is written.
   */
  function SaveFlagRow(store: Store, row: FlagData): (res: Option<(Store, FlagData)>)
    ensures res.None? <==> FlagConflict(store.flags, row)
    ensures res.Some? ==> res.value.1 == row.(id := res.value.1.id) && res.value.1.id.Some?
    ensures res.Some? && row.id.Some? ==> res.value.1.id == row.id
    ensures res.Some? && row.id.None? ==>
      res.value.0.flags == store.flags + [res.value.1] && res.value.0.nextFlagId == store.nextFlagId + 1
    ensures res.Some? && row.id.Some? ==>
      WrittenById(store.flags, res.value.0.flags, FlagId, res.value.1) && res.value.0.nextFlagId == Max(store.nextFlagId, row.id.value + 1)
    ensures res.Some? ==> res.value.0.reviews == store.reviews && res.value.0.segments == store.segments
    ensures res.Some? ==> res.value.0.nextReviewId == store.nextReviewId && res.value.0.nextSegmentId == store.nextSegmentId
  {
    if FlagConflict(store.flags, row) then None
    else if row.id.None? then
      var saved := row.(id := Some(store.nextFlagId));
      Some((store.(flags := store.flags + [saved], nextFlagId := store.nextFlagId + 1), saved))
    else
      var put := PutWithId(store.flags, FlagId, store.nextFlagId, row);
      Some((store.(flags := put.0, nextFlagId := put.1), row))
  }

  /** The unique constraint is an invariant of the flag table. */
  lemma {:induction false} SaveFlagRowValid(store: Store, row: FlagData)
    requires StoreValid(store)
    requires SaveFlagRow(store, row).Some?
    ensures StoreValid(SaveFlagRow(store, row).value.0)
    ensures SaveFlagRow(store, row).value.1 in SaveFlagRow(store, row).value.0.flags
  {
    var fs := store.flags;
    if row.id.None? {
      var saved := row.(id := Some(store.nextFlagId));
      var r := fs + [saved];
      forall i, j | 0 <= i < j < |r|
        ensures (r[i].user, r[i].review, r[i].flag) != (r[j].user, r[j].review, r[j].flag)
      {
        if j == |fs| {
          assert fs[i].id != row.id;
        }
      }
      assert r[|fs|] == saved;
    } else {
      PutWithIdValid(fs, FlagId, store.nextFlagId, row);
      var r := PutWithId(fs, FlagId, store.nextFlagId, row).0;
      forall i, j | 0 <= i < j < |r|
        ensures (r[i].user, r[i].review, r[i].flag) != (r[j].user, r[j].review, r[j].flag)
      {
        if HasId(fs, FlagId, row.id) {
          if fs[i].id == row.id {
            assert r[i] == row && r[j] == fs[j] && fs[j].id != row.id;
          } else if fs[j].id == row.id {
            assert r[j] == row && r[i] == fs[i] && fs[i].id != row.id;
          }
        } else if j == |fs| {
          assert r[j] == row && fs[i].id != row.id;
        }
      }
    }
  }

  // ---------------------------------------------------------------------
  // The default ordering of reviews

  /** `x <= y` on datetimes: by day, then by second. */
  predicate DateTimeLe(x: DateTime, y: DateTime)
  {
    x.day < y.day || (x.day == y.day && x.second <= y.second)
  }

  /**
   * `a` comes no later than `b` when reviews are ordered by `submit_date`.
   * An undated row sorts first (a stored review is always dated).
   */
  predicate NotLater(a: ReviewData, b: ReviewData)
  {
    a.submitDate.None? || (b.submitDate.Some? && DateTimeLe(a.submitDate.value, b.submitDate.value))
  }

  predicate SortedBySubmitDate(s: seq<ReviewData>)
  {
    forall i, j :: 0 <= i < j < |s| ==> NotLater(s[i], s[j])
  }

  /** Inserts `x` before the first row it is not later than. */
  function InsertBySubmitDate(x: ReviewData, s: seq<ReviewData>): (r: seq<ReviewData>)
    ensures |r| == |s| + 1
    ensures multiset(r) == multiset(s) + multiset{x}
    ensures r[0] == x || (s != [] && r[0] == s[0])
  {
    if s == [] || NotLater(x, s[0]) then [x] + s
    else
      assert s == [s[0]] + s[1..];
      [s[0]] + InsertBySubmitDate(x, s[1..])
  }

  /**
   * `Review.Meta.ordering = ('submit_date',)`: every review query set is
   * ordered by submission date. Rows with the same date keep their store
   * order.
   */
  function SortBySubmitDate(s: seq<ReviewData>): (r: seq<ReviewData>)
    ensures |r| == |s|
    ensures multiset(r) == multiset(s)
  {
    if s == [] then []
    else
      assert s == [s[0]] + s[1..];
      InsertBySubmitDate(s[0], SortBySubmitDate(s[1..]))
  }

  /** Inserting into a date-ordered sequence keeps it ordered. */
  lemma {:induction false} InsertBySubmitDateSorted(x: ReviewData, s: seq<ReviewData>)
    requires SortedBySubmitDate(s)
    ensures SortedBySubmitDate(InsertBySubmitDate(x, s))
  {
    if s != [] && !NotLater(x, s[0]) {
      InsertBySubmitDateSorted(x, s[1..]);
      var rest := InsertBySubmitDate(x, s[1..]);
      assert NotLater(s[0], rest[0]);
      forall j | 0 <= j < |rest| ensures NotLater(s[0], rest[j]) {
        if j > 0 {
          assert NotLater(rest[0], rest[j]);
        }
      }
    }
  }

  /** The ordered query set is sorted by submission date and a permutation of the rows. */
  lemma {:induction false} SortBySubmitDateCorrect(s: seq<ReviewData>)
    ensures SortedBySubmitDate(SortBySubmitDate(s))
    ensures forall x :: x in SortBySubmitDate(s) <==> x in s
  {
    if s != [] {
      SortBySubmitDateCorrect(s[1..]);
      InsertBySubmitDateSorted(s[0], SortBySubmitDate(s[1..]));
    }
    var r := SortBySubmitDate(s);
    forall x ensures x in r <==> x in s {
      assert x in r <==> x in multiset(r);
      assert x in s <==> x in multiset(s);
    }
  }

  // ---------------------------------------------------------------------
  // Derived author information

  /**
   * `Review.userinfo`: the stored name and e-mail; for a review posted by an
   * account, the account's non-empty e-mail wins, its non-empty full name wins,
   * and its username is used only when the review has no name of its own.
   */
  function AuthorInfo(row: ReviewData): (info: UserInfo)
    ensures row.user.None? ==> info == UserInfo(row.userName, row.userEmail)
    ensures row.user.Some? && row.user.value.email != "" ==> info.email == row.user.value.email
    ensures row.user.Some? && row.user.value.email == "" ==> info.email == row.userEmail
    ensures row.user.Some? && row.user.value.fullName != "" ==> info.name == row.user.value.fullName
    ensures row.user.Some? && row.user.value.fullName == "" && row.userName != "" ==> info.name == row.userName
    ensures row.user.Some? && row.user.value.fullName == "" && row.userName == "" ==> info.name == row.user.value.username
  {
    if row.user.None? then UserInfo(row.userName, row.userEmail)
    else
      var u := row.user.value;
      UserInfo(
        if u.fullName != "" then u.fullName else if row.userName == "" then u.username else row.userName,
        if u.email != "" then u.email else row.userEmail)
  }

  /**
   * The reported name is empty only when every source of a name is empty:
   * the review's own name, and for an account also its full name and username.
   */
  lemma AuthorNameEmpty(row: ReviewData)
    ensures AuthorInfo(row).name == "" <==>
      row.userName == "" && (row.user.Some? ==> row.user.value.fullName == "" && row.user.value.username == "")
  {
  }

  // ---------------------------------------------------------------------
  // Model instances

  /** An in-memory `Review` instance. */
  class Review {
    var id: Option<int>
    var contentType: string
    var objectPk: string
    var siteId: int
    var user: Option<User>
    var userName: string
    var userEmail: string
    var text: string
    var submitDate: Option<DateTime>
    var ipAddress: Option<string>
    var isPublic: bool
    var isRemoved: bool
    var category: Category
    /** the `_userinfo` attribute, absent until `userinfo` is first read */
    var userinfoCache: Option<UserInfo>

    /** The row this instance stands for. */
    function Row(): ReviewData
      reads this
    {
      ReviewData(id, contentType, objectPk, siteId, user, userName, userEmail, text,
                 submitDate, ipAddress, isPublic, isRemoved, category)
    }

    /** An instance built from row data (a new review, or one loaded from the store). */
    constructor FromRow(row: ReviewData)
      ensures Row() == row && userinfoCache.None?
    {
      id, contentType, objectPk, siteId := row.id, row.contentType, row.objectPk, row.siteId;
      user, userName, userEmail, text := row.user, row.userName, row.userEmail, row.text;
      submitDate, ipAddress, isPublic, isRemoved := row.submitDate, row.ipAddress, row.isPublic, row.isRemoved;
      category := row.category;
      userinfoCache := None;
    }

    /**
     * `save()`: sets `submit_date` to now only when it is unset, then writes
     * the row; an unsaved instance receives the new id.
     */
    method Save(store: Store, now: DateTime) returns (store': Store)
      modifies this
      ensures (store', Row()) == SaveReviewRow(store, old(Row()), now)
      ensures old(submitDate).Some? ==> submitDate == old(submitDate)
      ensures userinfoCache == old(userinfoCache)
    {
      if submitDate.None? {
        submitDate := Some(now);
      }
      if id.None? {
        id := Some(store.nextReviewId);
        store' := store.(reviews := store.reviews + [Row()], nextReviewId := store.nextReviewId + 1);
      } else {
        var put := PutWithId(store.reviews, ReviewId, store.nextReviewId, Row());
        store' := store.(reviews := put.0, nextReviewId := put.1);
      }
    }

    /**
     * The `userinfo` property: computed on first access from the current
     * fields, then cached, so later reads return the first answer even if the
     * fields have changed in between.
     */
    method Userinfo() returns (info: UserInfo)
      modifies this`userinfoCache
      ensures old(userinfoCache).Some? ==> info == old(userinfoCache).value
      ensures old(userinfoCache).None? ==> info == AuthorInfo(Row())
      ensures userinfoCache == Some(info)
    {
      if userinfoCache.None? {
        var d := UserInfo(userName, userEmail);
        if user.Some? {
          var u := user.value;
          if u.email != "" {
            d := d.(email := u.email);
          }
          if u.fullName != "" {
            d := d.(name := u.fullName);
          } else if userName == "" {
            d := d.(name := u.username);
          }
        }
        userinfoCache := Some(d);
      }
      info := userinfoCache.value;
    }

    /** The `email` property getter: the e-mail of `userinfo`. */
    method Email() returns (e: string)
      modifies this`userinfoCache
      ensures old(userinfoCache).Some? ==> e == old(userinfoCache).value.email
      ensures old(userinfoCache).None? ==> e == AuthorInfo(Row()).email
      ensures userinfoCache == Some(if old(userinfoCache).Some? then old(userinfoCache).value else AuthorInfo(Row()))
    {
      var info := Userinfo();
      e := info.email;
    }

    /**
     * The `email` property setter: read-only (raises `AttributeError`,
     * reported as `raised`) for a review posted by an account, otherwise it
     * sets `user_email`. The cached `userinfo` is not refreshed.
     */
    method SetEmail(val: string) returns (raised: bool)
      modifies this`userEmail
      ensures raised <==> user.Some?
      ensures raised ==> userEmail == old(userEmail)
      ensures !raised ==> userEmail == val
    {
      if user.Some? {
        raised := true;
      } else {
        raised := false;
        userEmail := val;
      }
    }

    /**
     * `get_absolute_url(anchor_pattern)`: the content object's redirect URL
     * followed by the anchor pattern filled in from the instance. With the
     * default pattern `#c%(id)s` the review's id can be read back.
     */
    function AbsoluteUrl(contentObjectUrl: (string, string) -> string, anchor: seq<AnchorPiece>): (url: string)
      reads this
      ensures |url| >= |contentObjectUrl(contentType, objectPk)|
      ensures url[..|contentObjectUrl(contentType, objectPk)|] == contentObjectUrl(contentType, objectPk)
      ensures url[|contentObjectUrl(contentType, objectPk)|..] == FormatAnchor(anchor, id)
      ensures anchor == DefaultAnchor ==>
        && |url| >= |contentObjectUrl(contentType, objectPk)| + 2
        && url[|contentObjectUrl(contentType, objectPk)|..][..2] == "#c"
        && (id.Some? ==> ParseInt(url[|contentObjectUrl(contentType, objectPk)| + 2..]) == id)
    {
      var base := contentObjectUrl(contentType, objectPk);
      var url := base + FormatAnchor(anchor, id);
      assert url[..|base|] == base;
      assert url[|base|..] == FormatAnchor(anchor, id);
      DefaultAnchorFormat(id);
      url
    }
  }

  /** A piece of an anchor pattern: literal text, or the `%(id)s` placeholder. */
  datatype AnchorPiece = Lit(text: string) | IdPlaceholder

  /** The default `anchor_pattern`, `#c%(id)s`. */
  const DefaultAnchor: seq<AnchorPiece> := [Lit("#c"), IdPlaceholder]

  /** `pattern % self.__dict__`: literal text is kept, `%(id)s` becomes `str(id)`. */
  function FormatAnchor(pattern: seq<AnchorPiece>, id: Option<int>): string
  {
    if pattern == [] then ""
    else (match pattern[0] case Lit(t) => t case IdPlaceholder => IdText(id)) + FormatAnchor(pattern[1..], id)
  }

  /** The default anchor is `#c` and the id, which parses back. */
  lemma DefaultAnchorFormat(id: Option<int>)
    ensures FormatAnchor(DefaultAnchor, id) == "#c" + IdText(id)
    ensures var a := FormatAnchor(DefaultAnchor, id); |a| >= 2 && a[..2] == "#c"
    ensures id.Some? ==> ParseInt(FormatAnchor(DefaultAnchor, id)[2..]) == id
  {
    var tail := DefaultAnchor[1..];
    assert tail == [IdPlaceholder] && tail[1..] == [];
    assert FormatAnchor(tail, id) == IdText(id) + FormatAnchor([], id);
    var a := FormatAnchor(DefaultAnchor, id);
    assert a == "#c" + FormatAnchor(tail, id);
    assert a[2..] == IdText(id);
    IdTextRoundTrip(id);
  }

  /** An in-memory `ReviewFlag` instance. */
  class ReviewFlag {
    var id: Option<int>
    var user: int
    var review: int
    var flag: string
    var flagDate: Option<DateTime>

    function Row(): FlagData
      reads this
    {
      FlagData(id, user, review, flag, flagDate)
    }

    constructor (user: int, review: int, flag: string)
      ensures Row() == FlagData(None, user, review, flag, None)
    {
      this.id, this.user, this.review, this.flag, this.flagDate := None, user, review, flag, None;
    }

    /**
     * `save()`: sets `flag_date` to now only when it is unset, then writes the
     * row. A second flag with the same (user, review, flag) is refused by the
     * database (`integrityError`), leaving the store as it was; the date has
     * been set on the instance all the same.
     */
    method Save(store: Store, now: DateTime) returns (store': Store, integrityError: bool)
      modifies this
      ensures flagDate == if old(flagDate).None? then Some(now) else old(flagDate)
      ensures var put := SaveFlagRow(store, old(Row()).(flagDate := flagDate));
        && integrityError == put.None?
        && (integrityError ==> store' == store && id == old(id))
        && (!integrityError ==> store' == put.value.0 && Row() == put.value.1)
      ensures user == old(user) && review == old(review) && flag == old(flag)
    {
      if flagDate.None? {
        flagDate := Some(now);
      }
      var put := SaveFlagRow(store, Row());
      if put.None? {
        integrityError := true;
        store' := store;
      } else {
        integrityError := false;
        store' := put.value.0;
        id := put.value.1.id;
      }
    }
  }
}
