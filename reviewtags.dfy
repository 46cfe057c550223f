/**
 * The review template tags: the query set of reviews shown for an object,
 * the `as varname` result handling, the count tag and the pk guard of the
 * form-rendering tag. A template context is a stack of dictionaries.
 */
module ReviewTags {
  import opened Wrappers
  import opened Models

  // ---------------------------------------------------------------------
  // Filtering

  /** `a` is `b` with some elements dropped. */
  predicate IsSubsequence<T(==)>(a: seq<T>, b: seq<T>)
    decreases |b|
  {
    if a == [] then true
    else if b == [] then false
    else (a[0] == b[0] && IsSubsequence(a[1..], b[1..])) || IsSubsequence(a, b[1..])
  }

  /** `qs.filter(...)`: the rows satisfying `p`, in their order. */
  function Filter(rows: seq<ReviewData>, p: ReviewData -> bool): (r: seq<ReviewData>)
    ensures forall x :: x in r <==> x in rows && p(x)
    ensures forall x :: multiset(r)[x] == if p(x) then multiset(rows)[x] else 0
    ensures IsSubsequence(r, rows)
  {
    if rows == [] then []
    else
      assert rows == [rows[0]] + rows[1..];
      if p(rows[0]) then [rows[0]] + Filter(rows[1..], p)
      else Filter(rows[1..], p)
  }

  /** SITE_ID and REVIEWS_HIDE_REMOVED (possibly unset). */
  datatype TagSettings = TagSettings(siteId: int, hideRemoved: Option<bool>)

  /** Which of the optional spam-filter fields the review model declares. */
  datatype ModelFields = ModelFields(hasIsPublic: bool, hasIsRemoved: bool)

  /** `getattr(settings, 'REVIEWS_HIDE_REMOVED', True)`. */
  function HideRemoved(s: TagSettings): bool
  {
    if s.hideRemoved.Some? then s.hideRemoved.value else true
  }

  /** The review is about the target object on this site. */
  predicate AboutTarget(r: ReviewData, target: Target, siteId: int)
  {
    r.contentType == target.contentType && r.objectPk == PkText(target.pk) && r.siteId == siteId
  }

  /** A review the listing shows for the target. */
  predicate Listed(s: TagSettings, fields: ModelFields, target: Target, r: ReviewData)
  {
    && AboutTarget(r, target, s.siteId)
    && (fields.hasIsPublic ==> r.isPublic)
    && (HideRemoved(s) && fields.hasIsRemoved ==> !r.isRemoved)
  }

  /**
   * `get_query_set`: nothing for a target whose pk is falsy; otherwise the
   * reviews of the target on this site, then only public ones when the model
   * has `is_public`, then only non-removed ones when hiding is on and the
   * model has `is_removed`; the result is in submission-date order, the
   * default ordering of the review model. Each listed review appears as
   * often as it is stored.
   */
  function QuerySet(s: TagSettings, fields: ModelFields, rows: seq<ReviewData>, target: Target): (qs: seq<ReviewData>)
    ensures !PkTruthy(target.pk) ==> qs == []
    ensures PkTruthy(target.pk) ==> forall r :: r in qs <==> r in rows && Listed(s, fields, target, r)
    ensures PkTruthy(target.pk) ==>
      forall r :: multiset(qs)[r] == if Listed(s, fields, target, r) then multiset(rows)[r] else 0
    ensures SortedBySubmitDate(qs)
  {
    if !PkTruthy(target.pk) then []
    else
      var base := Filter(rows, (r: ReviewData) => AboutTarget(r, target, s.siteId));
      var pub := if fields.hasIsPublic then Filter(base, (r: ReviewData) => r.isPublic) else base;
      var shown := if HideRemoved(s) && fields.hasIsRemoved then Filter(pub, (r: ReviewData) => !r.isRemoved) else pub;
      SortBySubmitDateCorrect(shown);
      assert forall r :: r in shown <==> r in rows && Listed(s, fields, target, r);
      SortBySubmitDate(shown)
  }

  /**
   * A removed review of the target stays listed when removed reviews are not
   * hidden (REVIEWS_HIDE_REMOVED false, or no `is_removed` field).
   */
  lemma RemovedKeptUnlessHidden(s: TagSettings, fields: ModelFields, rows: seq<ReviewData>, target: Target, r: ReviewData)
    requires PkTruthy(target.pk) && r in rows && AboutTarget(r, target, s.siteId) && r.isRemoved
    requires fields.hasIsPublic ==> r.isPublic
    ensures r in QuerySet(s, fields, rows, target) <==> !(HideRemoved(s) && fields.hasIsRemoved)
  {
  }

  // ---------------------------------------------------------------------
  // The template context

  /** A value a tag computes. */
  datatype Value = Text(s: string) | Number(n: int) | Reviews(rows: seq<ReviewData>)

  /** A template context: a stack of dictionaries, the innermost last. */
  class Context {
    var dicts: seq<map<string, Value>>

    constructor ()
      ensures dicts == [map[]]
    {
      dicts := [map[]];
    }

    /** `context[key]`: the innermost binding of `key`. */
    function Lookup(key: string): Option<Value>
      reads this
    {
      LookupIn(dicts, key)
    }

    /** `context[key] = v`: binds in the innermost dictionary. */
    method Set(key: string, v: Value)
      requires |dicts| > 0
      modifies this
      ensures |dicts| == |old(dicts)|
      ensures dicts == old(dicts)[..|old(dicts)| - 1] + [old(dicts)[|old(dicts)| - 1][key := v]]
      ensures Lookup(key) == Some(v)
    {
      dicts := dicts[..|dicts| - 1] + [dicts[|dicts| - 1][key := v]];
      LookupInnermost(dicts, key);
    }

    /** `context.push()`. */
    method Push()
      modifies this
      ensures dicts == old(dicts) + [map[]]
    {
      dicts := dicts + [map[]];
    }

    /** `context.pop()`, which Django refuses on the outermost dictionary. */
    method Pop()
      requires |dicts| > 1
      modifies this
      ensures dicts == old(dicts)[..|old(dicts)| - 1]
    {
      dicts := dicts[..|dicts| - 1];
    }
  }

  /** The innermost binding of `key` in a stack of dictionaries: the last dictionary that binds it wins. */
  function LookupIn(dicts: seq<map<string, Value>>, key: string): (r: Option<Value>)
    ensures r.Some? <==> exists i :: 0 <= i < |dicts| && key in dicts[i]
    ensures r.Some? ==> exists i :: && 0 <= i < |dicts| && key in dicts[i] && r.value == dicts[i][key]
                                    && forall j :: i < j < |dicts| ==> key !in dicts[j]
  {
    if dicts == [] then None
    else if key in dicts[|dicts| - 1] then Some(dicts[|dicts| - 1][key])
    else LookupIn(dicts[..|dicts| - 1], key)
  }

  lemma LookupInnermost(dicts: seq<map<string, Value>>, key: string)
    requires |dicts| > 0 && key in dicts[|dicts| - 1]
    ensures LookupIn(dicts, key) == Some(dicts[|dicts| - 1][key])
  {
  }

  /**
   * `handle_result`: with a non-empty `as` variable the result is bound in
   * the context and the tag renders nothing; otherwise the result is
   * rendered and the context is untouched.
   */
  method HandleResult(ctx: Context, varname: Option<string>, rs: Value) returns (out: Value)
    requires |ctx.dicts| > 0
    modifies ctx
    ensures varname.Some? && varname.value != "" ==>
      && out == Text("")
      && ctx.dicts == old(ctx.dicts)[..|old(ctx.dicts)| - 1] + [old(ctx.dicts)[|old(ctx.dicts)| - 1][varname.value := rs]]
      && ctx.Lookup(varname.value) == Some(rs)
    ensures !(varname.Some? && varname.value != "") ==> out == rs && ctx.dicts == old(ctx.dicts)
  {
    if varname.Some? && varname.value != "" {
      ctx.Set(varname.value, rs);
      out := Text("");
    } else {
      out := rs;
    }
  }

  /**
   * `get_review_count` rendered through `ListHandler.render`: the size of the
   * query set, rendered or bound to the `as` variable.
   */
  method CountTag(ctx: Context, s: TagSettings, fields: ModelFields, rows: seq<ReviewData>,
                  target: Target, varname: Option<string>) returns (out: Value)
    requires |ctx.dicts| > 0
    modifies ctx
    ensures var count := Number(|QuerySet(s, fields, rows, target)|);
      && (varname.Some? && varname.value != "" ==>
            && out == Text("")
            && ctx.dicts == old(ctx.dicts)[..|old(ctx.dicts)| - 1] + [old(ctx.dicts)[|old(ctx.dicts)| - 1][varname.value := count]]
            && ctx.Lookup(varname.value) == Some(count))
      && (!(varname.Some? && varname.value != "") ==> out == count && ctx.dicts == old(ctx.dicts))
  {
    var qs := QuerySet(s, fields, rows, target);
    out := HandleResult(ctx, varname, Number(|qs|));
  }

  /** The count is bounded by the reviews of the target and is zero for a pk-less target. */
  lemma {:induction false} CountBounds(s: TagSettings, fields: ModelFields, rows: seq<ReviewData>, target: Target)
    ensures |QuerySet(s, fields, rows, target)| <= |Filter(rows, (r: ReviewData) => AboutTarget(r, target, s.siteId))|
    ensures !PkTruthy(target.pk) ==> |QuerySet(s, fields, rows, target)| == 0
  {
    var base := Filter(rows, (r: ReviewData) => AboutTarget(r, target, s.siteId));
    var qs := QuerySet(s, fields, rows, target);
    if PkTruthy(target.pk) {
      var pub := if fields.hasIsPublic then Filter(base, (r: ReviewData) => r.isPublic) else base;
      FilterShorter(base, (r: ReviewData) => r.isPublic);
      FilterShorter(pub, (r: ReviewData) => !r.isRemoved);
    }
  }

  lemma {:induction false} FilterShorter(rows: seq<ReviewData>, p: ReviewData -> bool)
    ensures |Filter(rows, p)| <= |rows|
  {
    if rows != [] {
      FilterShorter(rows[1..], p);
    }
  }

  /**
   * The template names tried in turn for a kind of page (`form`,
   * `preview`): by app and model, by app, then the same three levels with
   * the category appended, then the generic page.
   */
  function TemplateCandidates(kind: string, appLabel: string, modelName: string, category: string): (names: seq<string>)
    ensures |names| == 6 && names[5] == "reviews/" + kind + ".html"
    ensures names[0] == "reviews/" + appLabel + "/" + modelName + "/" + kind + ".html"
  {
    [ "reviews/" + appLabel + "/" + modelName + "/" + kind + ".html",
      "reviews/" + appLabel + "/" + kind + ".html",
      "reviews/" + appLabel + "/" + modelName + "/" + kind + "_" + category + ".html",
      "reviews/" + appLabel + "/" + kind + "_" + category + ".html",
      "reviews/" + kind + "_" + category + ".html",
      "reviews/" + kind + ".html" ]
  }

  /**
   * `render_review_form`: nothing for a pk-less target; otherwise the form
   * rendered from the first template found, inside a pushed context that is
   * popped again. `render` stands for template rendering.
   */
  method RenderReviewForm(ctx: Context, target: Target, appLabel: string, modelName: string, category: string,
                          render: (seq<string>, Target, string) -> string) returns (out: string)
    requires |ctx.dicts| > 0
    modifies ctx
    ensures !PkTruthy(target.pk) ==> out == ""
    ensures PkTruthy(target.pk) ==> out == render(TemplateCandidates("form", appLabel, modelName, category), target, category)
    ensures ctx.dicts == old(ctx.dicts)
  {
    if PkTruthy(target.pk) {
      var names := TemplateCandidates("form", appLabel, modelName, category);
      ctx.Push();
      out := render(names, target, category);
      ctx.Pop();
    } else {
      out := "";
    }
  }
}
