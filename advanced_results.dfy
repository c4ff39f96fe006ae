/**
 * The advanced-results middleware: from `req.query` it builds the database
 * query (filter, projection, sort, skip and limit) and the response envelope
 * with its pagination links.
 *
 * The database is abstract: `total` is what `countDocuments()` answers for
 * the whole collection and `found` is the sequence of documents that match
 * the filter, in the requested order, before skip and limit are applied.
 */
module AdvancedResults {
  import opened Wrappers
  import opened JsText
  import opened QueryValue
  import opened Operators
  import opened Http
  import opened SeqFacts

  /** The keys that steer the listing and are not part of the filter. */
  const RemoveFields: seq<string> := ["select", "sort", "page", "limit"]
  const DefaultSort: string := "-createdAt"
  const DefaultPage: int := 1
  const DefaultLimit: int := 10

  function KeySet(keys: seq<string>): set<string> {
    set k | k in keys
  }

  // ---------------------------------------------------------------------------
  // The filter: a copy of the query without the reserved keys

  /** The entries whose key is not in `keys`, in their order. */
  function Without(es: seq<Entry>, keys: set<string>): (r: seq<Entry>)
    ensures |r| <= |es|
  {
    if es == [] then []
    else (if es[0].key in keys then [] else [es[0]]) + Without(es[1..], keys)
  }

  /** Exactly the entries with other keys are kept. */
  lemma {:induction false} WithoutMembers(es: seq<Entry>, keys: set<string>, e: Entry)
    ensures e in Without(es, keys) <==> e in es && e.key !in keys
  {
    if es != [] {
      WithoutMembers(es[1..], keys, e);
      assert e in es <==> e == es[0] || e in es[1..];
    }
  }

  /** `delete obj[key]` */
  function Delete(es: seq<Entry>, key: string): seq<Entry> {
    Without(es, {key})
  }

  lemma {:induction false} WithoutNothing(es: seq<Entry>)
    ensures Without(es, {}) == es
  {
    if es != [] {
      WithoutNothing(es[1..]);
      assert [es[0]] + es[1..] == es;
    }
  }

  lemma {:induction false} WithoutWithout(es: seq<Entry>, a: set<string>, b: set<string>)
    ensures Without(Without(es, a), b) == Without(es, a + b)
  {
    if es != [] {
      WithoutWithout(es[1..], a, b);
      var head := if es[0].key in a then [] else [es[0]];
      assert Without(es, a) == head + Without(es[1..], a);
      WithoutConcat(head, Without(es[1..], a), b);
      if es[0].key !in a {
        assert Without(head, b) == (if es[0].key in b then [] else [es[0]]) + Without([], b);
      }
    }
  }

  lemma {:induction false} WithoutConcat(xs: seq<Entry>, ys: seq<Entry>, keys: set<string>)
    ensures Without(xs + ys, keys) == Without(xs, keys) + Without(ys, keys)
  {
    if xs == [] {
      EmptyLeft(xs, ys);
      EmptyLeft(Without(xs, keys), Without(ys, keys));
    } else {
      Peel(xs, ys);
      WithoutConcat(xs[1..], ys, keys);
      var head := if xs[0].key in keys then [] else [xs[0]];
      Assoc(head, Without(xs[1..], keys), Without(ys, keys));
    }
  }

  /** A removed key reads as `undefined`; every other key keeps its value. */
  lemma {:induction false} WithoutLookup(es: seq<Entry>, keys: set<string>, k: string)
    ensures Lookup(Without(es, keys), k) == if k in keys then None else Lookup(es, k)
  {
    if es != [] {
      WithoutLookup(es[1..], keys, k);
      if es[0].key !in keys {
        var r := Without(es, keys);
        assert r == [es[0]] + Without(es[1..], keys);
        assert r[0] == es[0] && r[1..] == Without(es[1..], keys);
      } else {
        assert Without(es, keys) == Without(es[1..], keys);
      }
    }
  }

  /**
   * `{ ...req.query }` followed by deleting the reserved keys one by one:
   * the query without exactly those keys.
   */
  method StripReserved(query: seq<Entry>) returns (reqQuery: seq<Entry>)
    ensures reqQuery == Without(query, KeySet(RemoveFields))
  {
    reqQuery := query;
    WithoutNothing(query);
    assert KeySet(RemoveFields[..0]) == {};
    for i := 0 to |RemoveFields|
      invariant reqQuery == Without(query, KeySet(RemoveFields[..i]))
    {
      WithoutWithout(query, KeySet(RemoveFields[..i]), {RemoveFields[i]});
      assert KeySet(RemoveFields[..i + 1]) == KeySet(RemoveFields[..i]) + {RemoveFields[i]} by {
        assert RemoveFields[..i + 1] == RemoveFields[..i] + [RemoveFields[i]];
      }
      reqQuery := Delete(reqQuery, RemoveFields[i]);
    }
    assert RemoveFields[..|RemoveFields|] == RemoveFields;
  }

  // ---------------------------------------------------------------------------
  // Projection and sort

  /** `s.split(',').join(' ')`: every comma becomes a space, nothing else changes. */
  function CommaToSpace(s: string): (r: string)
    ensures |r| == |s|
    ensures forall i :: 0 <= i < |s| ==> r[i] == if s[i] == ',' then ' ' else s[i]
  {
    JoinSplitReplace(s, ',', ' ');
    Join(Split(s, ','), " ")
  }

  /** `if (req.query.select) fields = req.query.select.split(',').join(' ')` */
  function Projection(select: Option<QVal>): Result<Option<string>, Error> {
    if !Truthy(select) then Ok(None)
    else if select.value.Str? then Ok(Some(CommaToSpace(select.value.s)))
    else Err(TypeError("req.query.select.split is not a function"))
  }

  /** The sort string of `req.query.sort`, `-createdAt` when it is absent or empty. */
  function SortOrder(sort: Option<QVal>): Result<string, Error> {
    if !Truthy(sort) then Ok(DefaultSort)
    else if sort.value.Str? then Ok(CommaToSpace(sort.value.s))
    else Err(TypeError("req.query.sort.split is not a function"))
  }

  // ---------------------------------------------------------------------------
  // Page and limit

  /** `parseInt(v, 10) || fallback`: NaN and zero are falsy. */
  function IntParam(v: Option<QVal>, fallback: int): int {
    match ParseInt10(ToJsString(v))
    case NaN => fallback
    case Num(n) => if n == 0 then fallback else n
  }

  /** An absent parameter gives the default. */
  lemma {:induction false} IntParamAbsent(fallback: int)
    ensures IntParam(None, fallback) == fallback
  {
    assert !IsSpace('u');
    assert TrimStart("undefined") == "undefined";
  }

  /** So does a zero... */
  lemma {:induction false} IntParamZero(fallback: int)
    ensures IntParam(Some(Str("0")), fallback) == fallback
  {
    ParseIntDecimal(0);
    assert Decimal(0) == "0";
  }

  /** ...and a text that does not start like a number. */
  lemma {:induction false} IntParamText(s: string, fallback: int)
    requires s != [] && !IsSpace(s[0]) && !IsDigit(s[0]) && s[0] != '-' && s[0] != '+'
    ensures IntParam(Some(Str(s)), fallback) == fallback
  {
    ParseIntNoDigits(s);
  }

  /** A positive numeral gives its value. */
  lemma {:induction false} IntParamNumeral(n: nat, fallback: int)
    requires n > 0
    ensures IntParam(Some(Str(Decimal(n))), fallback) == n
  {
    ParseIntDecimal(n);
  }

  /** The result is never zero when the default is not. */
  lemma {:induction false} IntParamNonZero(v: Option<QVal>, fallback: int)
    requires fallback != 0
    ensures IntParam(v, fallback) != 0
  {
  }

  function StartIndex(page: int, limit: int): int {
    (page - 1) * limit
  }

  function EndIndex(page: int, limit: int): int {
    page * limit
  }

  /** A page spans `limit` positions and ends where the next one starts. */
  lemma {:induction false} PagesAdjoin(page: int, limit: int)
    ensures EndIndex(page, limit) - StartIndex(page, limit) == limit
    ensures EndIndex(page, limit) == StartIndex(page + 1, limit)
  {
  }

  datatype Window = Window(page: int, limit: int, startIndex: int, endIndex: int)

  function WindowFor(page: int, limit: int): Window {
    Window(page, limit, StartIndex(page, limit), EndIndex(page, limit))
  }

  /** Page and limit from the query, each defaulted by the `|| default` rule. */
  function WindowOf(query: seq<Entry>): (w: Window)
    ensures w.page != 0 && w.limit != 0
  {
    var page := IntParam(Lookup(query, "page"), DefaultPage);
    var limit := IntParam(Lookup(query, "limit"), DefaultLimit);
    WindowFor(page, limit)
  }

  // ---------------------------------------------------------------------------
  // Pagination links

  datatype PageLink = PageLink(page: int, limit: int)
  datatype Pagination = Pagination(next: Option<PageLink>, prev: Option<PageLink>)

  function PaginationOf(w: Window, total: nat): Pagination {
    Pagination(
      if w.endIndex < total then Some(PageLink(w.page + 1, w.limit)) else None,
      if w.startIndex > 0 then Some(PageLink(w.page - 1, w.limit)) else None)
  }

  /** For ordinary pages, a previous link exists exactly when the page is not the first. */
  lemma {:induction false} PrevIffNotFirst(page: int, limit: int, total: nat)
    requires page >= 1 && limit >= 1
    ensures PaginationOf(WindowFor(page, limit), total).prev.Some? <==> page > 1
  {
    if page > 1 {
      assert (page - 1) * limit >= limit;
    }
  }

  // ---------------------------------------------------------------------------
  // The database side

  function Abs(n: int): nat {
    if n < 0 then -n else n
  }

  function Min(a: int, b: int): int {
    if a <= b then a else b
  }

  /**
   * How many of `remaining` documents a limit lets through: all of them for
   * 0, otherwise as many as the limit's absolute value allows.
   */
  function Taken(remaining: nat, limit: int): nat {
    if limit == 0 then remaining else Min(Abs(limit), remaining)
  }

  /**
   * `.skip(skip).limit(limit)` as the database runs it: a negative skip is
   * refused, a limit of 0 means no limit, a negative limit caps like its absolute value.
   */
  function Run<D>(found: seq<D>, skip: int, limit: int): (r: Option<seq<D>>)
    ensures r.None? <==> skip < 0
    ensures r.Some? ==> limit != 0 ==> |r.value| <= Abs(limit)
    ensures r.Some? ==> r.value <= found[Min(skip, |found|)..]
    ensures r.Some? && skip + Abs(limit) <= |found| && limit != 0 ==> |r.value| == Abs(limit)
    ensures r.Some? ==> |r.value| == Taken(|found| - Min(skip, |found|), limit)
  {
    if skip < 0 then None
    else
      var from := Min(skip, |found|);
      var to := if limit == 0 then |found| else Min(skip + Abs(limit), |found|);
      Some(found[from..to])
  }

  /** A short last page holds every document that remains after the skip. */
  lemma {:induction false} RunShortLastPage<D>(found: seq<D>, skip: int, limit: int)
    requires 0 <= skip <= |found| && limit != 0 && skip + Abs(limit) > |found|
    ensures Run(found, skip, limit) == Some(found[skip..])
  {
    var r := Run(found, skip, limit).value;
    var rest := found[skip..];
    assert Min(skip, |found|) == skip;
    assert |r| == |rest|;
    assert forall i :: 0 <= i < |r| ==> r[i] == rest[i];
    assert r == rest;
  }

  /**
   * The next link is offered exactly when the following page of the whole
   * collection (of which `total` counts the documents) is not empty.
   */
  lemma {:induction false} NextIffMoreDocuments<D>(page: int, limit: int, all: seq<D>)
    requires page >= 1 && limit >= 1
    ensures var w := WindowFor(page, limit);
      var following := Run(all, StartIndex(page + 1, limit), limit);
      && following.Some?
      && (PaginationOf(w, |all|).next.Some? <==> following.value != [])
  {
    PagesAdjoin(page, limit);
    assert page * limit >= 0;
  }

  /** Following the next link and then that page's previous link comes back. */
  lemma {:induction false} NextThenPrev(page: int, limit: int, total: nat)
    requires page >= 1 && limit >= 1
    requires PaginationOf(WindowFor(page, limit), total).next.Some?
    ensures var link := PaginationOf(WindowFor(page, limit), total).next.value;
      PaginationOf(WindowFor(link.page, link.limit), total).prev == Some(PageLink(page, limit))
  {
    assert page * limit > 0;
  }

  /** Following the previous link of a page that lies within the collection, and then next, comes back. */
  lemma {:induction false} PrevThenNext(page: int, limit: int, total: nat)
    requires page >= 1 && limit >= 1
    requires StartIndex(page, limit) < total
    requires PaginationOf(WindowFor(page, limit), total).prev.Some?
    ensures var link := PaginationOf(WindowFor(page, limit), total).prev.value;
      PaginationOf(WindowFor(link.page, link.limit), total).next == Some(PageLink(page, limit))
  {
  }

  /** A link's page and limit, written back into a query string, select that page again. */
  lemma {:induction false} LinkReproducesWindow(link: PageLink, filter: seq<Entry>)
    requires link.page >= 1 && link.limit >= 1
    ensures var q := [Entry("page", Str(Decimal(link.page))), Entry("limit", Str(Decimal(link.limit)))] + filter;
      WindowOf(q) == WindowFor(link.page, link.limit)
  {
    var q := [Entry("page", Str(Decimal(link.page))), Entry("limit", Str(Decimal(link.limit)))] + filter;
    assert Lookup(q, "page") == Some(Str(Decimal(link.page)));
    assert q[1..][0] == Entry("limit", Str(Decimal(link.limit)));
    assert Lookup(q, "limit") == Some(Str(Decimal(link.limit)));
    IntParamNumeral(link.page, DefaultPage);
    IntParamNumeral(link.limit, DefaultLimit);
  }

  // ---------------------------------------------------------------------------
  // The whole middleware

  /** The query handed to the database. */
  datatype DbQuery = DbQuery(filter: string, fields: Option<string>, sortBy: string, skip: int, limit: int, populate: Option<QVal>)

  /** `res.advancedResults` */
  datatype Envelope<D> = Envelope(success: bool, count: nat, pagination: Pagination, data: seq<D>)

  /** The query the middleware builds, or the error thrown while building it. */
  function BuildQuery(query: seq<Entry>, populate: Option<QVal>): Result<DbQuery, Error> {
    var filter := Rewrite(Stringify(Obj(Without(query, KeySet(RemoveFields)))));
    match Projection(Lookup(query, "select"))
    case Err(e) => Err(e)
    case Ok(fields) =>
      match SortOrder(Lookup(query, "sort"))
      case Err(e) => Err(e)
      case Ok(sortBy) =>
        var w := WindowOf(query);
        Ok(DbQuery(filter, fields, sortBy, w.startIndex, w.limit, if Truthy(populate) then populate else None))
  }

  /** The envelope the middleware stores, or the error its promise rejects with. */
  function Respond<D>(query: seq<Entry>, populate: Option<QVal>, total: nat, found: seq<D>): Result<Envelope<D>, Error> {
    match BuildQuery(query, populate)
    case Err(e) => Err(e)
    case Ok(q) =>
      match Run(found, q.skip, q.limit)
      case None => Err(QueryRefused)
      case Some(results) => Ok(Envelope(true, |results|, PaginationOf(WindowOf(query), total), results))
  }

  /** How `BuildQuery` assembles its parts once select and sort are accepted. */
  lemma {:induction false} BuildQueryIs(query: seq<Entry>, populate: Option<QVal>, fields: Option<string>, sortBy: string)
    requires Projection(Lookup(query, "select")) == Ok(fields)
    requires SortOrder(Lookup(query, "sort")) == Ok(sortBy)
    ensures var w := WindowOf(query);
      BuildQuery(query, populate) == Ok(DbQuery(Rewrite(Stringify(Obj(Without(query, KeySet(RemoveFields))))),
        fields, sortBy, w.startIndex, w.limit, if Truthy(populate) then populate else None))
  {
  }

  lemma {:induction false} SelectRejected<D>(query: seq<Entry>, populate: Option<QVal>, total: nat, found: seq<D>)
    requires Truthy(Lookup(query, "select")) && !Lookup(query, "select").value.Str?
    ensures BuildQuery(query, populate) == Err(TypeError("req.query.select.split is not a function"))
    ensures Respond(query, populate, total, found) == Err(TypeError("req.query.select.split is not a function"))
  {
  }

  lemma {:induction false} SortRejected<D>(query: seq<Entry>, populate: Option<QVal>, total: nat, found: seq<D>)
    requires Projection(Lookup(query, "select")).Ok?
    requires Truthy(Lookup(query, "sort")) && !Lookup(query, "sort").value.Str?
    ensures BuildQuery(query, populate) == Err(TypeError("req.query.sort.split is not a function"))
    ensures Respond(query, populate, total, found) == Err(TypeError("req.query.sort.split is not a function"))
  {
  }

  /** Unfolds `Respond` once the query is built; a step of the proofs below. */
  lemma {:induction false} RespondIs<D>(query: seq<Entry>, populate: Option<QVal>, total: nat, found: seq<D>, q: DbQuery)
    requires BuildQuery(query, populate) == Ok(q)
    ensures Respond(query, populate, total, found)
         == match Run(found, q.skip, q.limit)
            case None => Err(QueryRefused)
            case Some(results) => Ok(Envelope(true, |results|, PaginationOf(WindowOf(query), total), results))
  {
  }

  class Response<D> {
    /** `res.advancedResults` */
    var advancedResults: Option<Envelope<D>>

    constructor ()
      ensures advancedResults == None
    {
      advancedResults := None;
    }
  }

  /** The `pagination` object, filled in link by link. */
  method Paginate(page: int, limit: int, total: nat) returns (pagination: Pagination)
    ensures pagination == PaginationOf(WindowFor(page, limit), total)
  {
    var startIndex := StartIndex(page, limit);
    var endIndex := EndIndex(page, limit);
    pagination := Pagination(None, None);
    if endIndex < total {
      pagination := pagination.(next := Some(PageLink(page + 1, limit)));
    }
    if startIndex > 0 {
      pagination := pagination.(prev := Some(PageLink(page - 1, limit)));
    }
  }

  /**
   * `advancedResults(model, populate)(req, res, next)`. The middleware is an
   * async function that nothing wraps: an error thrown inside rejects its
   * promise and `next` is never called. Also returns the query sent to the
   * database, if one was sent.
   */
  method AdvancedResults<D>(req: Request, res: Response<D>, populate: Option<QVal>, total: nat, found: seq<D>)
      returns (k: Continuation, sent: Option<DbQuery>)
    modifies res
    ensures sent == if BuildQuery(req.query, populate).Ok? then Some(BuildQuery(req.query, populate).value) else None
    ensures Respond(req.query, populate, total, found).Ok? ==>
      k == Next && res.advancedResults == Some(Respond(req.query, populate, total, found).value)
    ensures Respond(req.query, populate, total, found).Err? ==>
      k == Rejected(Respond(req.query, populate, total, found).error) && res.advancedResults == old(res.advancedResults)
  {
    var reqQuery := StripReserved(req.query);
    var queryStr := Stringify(Obj(reqQuery));
    queryStr := Rewrite(queryStr);

    var fields: Option<string> := None;
    var select := Lookup(req.query, "select");
    if Truthy(select) {
      if !select.value.Str? {
        SelectRejected(req.query, populate, total, found);
        return Rejected(TypeError("req.query.select.split is not a function")), None;
      }
      fields := Some(CommaToSpace(select.value.s));
    }

    var sortBy: string;
    var sort := Lookup(req.query, "sort");
    if Truthy(sort) {
      if !sort.value.Str? {
        SortRejected(req.query, populate, total, found);
        return Rejected(TypeError("req.query.sort.split is not a function")), None;
      }
      sortBy := CommaToSpace(sort.value.s);
    } else {
      sortBy := DefaultSort;
    }

    var page := IntParam(Lookup(req.query, "page"), DefaultPage);
    var limit := IntParam(Lookup(req.query, "limit"), DefaultLimit);
    var startIndex := StartIndex(page, limit);

    var q := DbQuery(queryStr, fields, sortBy, startIndex, limit, None);
    if Truthy(populate) {
      q := q.(populate := populate);
    }
    sent := Some(q);
    ghost var w := WindowOf(req.query);
    assert w == WindowFor(page, limit);
    BuildQueryIs(req.query, populate, fields, sortBy);
    assert BuildQuery(req.query, populate) == Ok(q);

    var results := Run(found, q.skip, q.limit);
    RespondIs(req.query, populate, total, found, q);
    if results.None? {
      return Rejected(QueryRefused), sent;
    }

    var pagination := Paginate(page, limit, total);
    res.advancedResults := Some(Envelope(true, |results.value|, pagination, results.value));
    k := Next;
  }

  // ---------------------------------------------------------------------------
  // Properties of the whole middleware

  /**
   * A stored envelope reports success, counts its data, links pages against
   * the unfiltered total, and holds the found documents from the skip
   * position on: `limit` of them, or all that remain on a short last page.
   */
  lemma {:induction false} EnvelopeShape<D>(query: seq<Entry>, populate: Option<QVal>, total: nat, found: seq<D>)
    requires Respond(query, populate, total, found).Ok?
    ensures var env := Respond(query, populate, total, found).value;
      var w := WindowOf(query);
      && env.success
      && env.count == |env.data|
      && env.pagination == PaginationOf(w, total)
      && 0 <= w.startIndex
      && env.data <= found[Min(w.startIndex, |found|)..]
      && |env.data| <= Abs(w.limit)
      && |env.data| == Min(Abs(w.limit), |found| - Min(w.startIndex, |found|))
  {
  }

  /** The middleware rejects exactly when select or sort is an array or object, or the skip is negative. */
  lemma {:induction false} RejectedIff<D>(query: seq<Entry>, populate: Option<QVal>, total: nat, found: seq<D>)
    ensures var select := Lookup(query, "select");
      var sort := Lookup(query, "sort");
      Respond(query, populate, total, found).Err? <==>
        || (Truthy(select) && !select.value.Str?)
        || (Truthy(sort) && !sort.value.Str?)
        || WindowOf(query).startIndex < 0
  {
  }

  /** With page and limit at least 1, only a non-string select or sort can stop the middleware. */
  lemma {:induction false} OrdinaryPageAccepted<D>(query: seq<Entry>, populate: Option<QVal>, total: nat, found: seq<D>)
    requires WindowOf(query).page >= 1 && WindowOf(query).limit >= 1
    requires BuildQuery(query, populate).Ok?
    ensures Respond(query, populate, total, found).Ok?
    ensures |Respond(query, populate, total, found).value.data| <= WindowOf(query).limit
  {
    var w := WindowOf(query);
    var q := BuildQuery(query, populate).value;
    StartIndexNonNegative(w.page, w.limit);
    assert q.skip == w.startIndex >= 0 && q.limit == w.limit;
    RespondIs(query, populate, total, found, q);
  }

  lemma {:induction false} StartIndexNonNegative(page: int, limit: int)
    requires page >= 1 && limit >= 1
    ensures StartIndex(page, limit) >= 0
  {
    var a: nat := page - 1;
    var b: nat := limit;
    assert a * b >= 0;
  }

  lemma {:induction false} WithoutNoControl(es: seq<Entry>, keys: set<string>)
    requires NoControl(Obj(es))
    ensures NoControl(Obj(Without(es, keys)))
  {
    var r := Without(es, keys);
    forall i | 0 <= i < |r| ensures NoControlEntry(r[i]) {
      WithoutMembers(es, keys, r[i]);
      var j :| 0 <= j < |es| && es[j] == r[i];
    }
  }

  /**
   * The filter text sent to the database is the JSON of the query without
   * its reserved keys, with every operator word in every key and string
   * prefixed by `$` (for queries without control characters).
   */
  lemma {:induction false} FilterIsRewrittenQuery(query: seq<Entry>, populate: Option<QVal>)
    requires NoControl(Obj(query))
    requires BuildQuery(query, populate).Ok?
    ensures BuildQuery(query, populate).value.filter
         == Stringify(Obj(RewriteEntries(Without(query, KeySet(RemoveFields)))))
  {
    var kept := Without(query, KeySet(RemoveFields));
    WithoutNoControl(query, KeySet(RemoveFields));
    StringifyRewrite(Obj(kept));
  }

  /** `w` is a non-empty run of word characters that is no operator. */
  predicate PlainWord(w: string) {
    w != [] && w !in OperatorWords && forall i :: 0 <= i < |w| ==> IsWordChar(w[i])
  }

  /**
   * A bracketed operator such as `?price[lte]=1000`, which the query parser
   * hands over as `{ price: { lte: '1000' } }`, filters on the JSON of
   * `{ price: { $lte: '1000' } }`; the first page of ten, newest first, is asked for.
   */
  lemma {:induction false} BracketOperatorFilter(field: string, op: string, value: string)
    requires PlainWord(field) && PlainWord(value) && field !in RemoveFields
    requires op in OperatorWords
    ensures var query := [Entry(field, Obj([Entry(op, Str(value))]))];
      && BuildQuery(query, None).Ok?
      && BuildQuery(query, None).value.filter
         == Stringify(Obj([Entry(field, Obj([Entry("$" + op, Str(value))]))]))
      && BuildQuery(query, None).value.skip == 0
      && BuildQuery(query, None).value.limit == 10
      && BuildQuery(query, None).value.sortBy == DefaultSort
  {
    var e := Entry(field, Obj([Entry(op, Str(value))]));
    var query := [e];
    SingleWithout(e, KeySet(RemoveFields));
    BracketNoControl(field, op, value);
    StringifyRewrite(Obj(query));
    BracketRewritten(field, op, value);
    BracketWindow(e);
    BuildQueryIs(query, None, None, DefaultSort);
  }

  lemma {:induction false} SingleWithout(e: Entry, keys: set<string>)
    requires e.key !in keys
    ensures Without([e], keys) == [e]
  {
    assert [e][0] == e && [e][1..] == [];
  }

  lemma {:induction false} BracketNoControl(field: string, op: string, value: string)
    requires PlainWord(field) && PlainWord(value) && op in OperatorWords
    ensures NoControl(Obj([Entry(field, Obj([Entry(op, Str(value))]))]))
  {
    var inner := Entry(op, Str(value));
    var outer := Entry(field, Obj([inner]));
    assert NoControlText(op);
    assert NoControlEntry(inner);
    assert NoControl(Obj([inner])) by { assert [inner][0] == inner; }
    assert NoControlEntry(outer);
    assert [outer][0] == outer;
  }

  lemma {:induction false} BracketRewritten(field: string, op: string, value: string)
    requires PlainWord(field) && PlainWord(value) && op in OperatorWords
    ensures RewriteStrings(Obj([Entry(field, Obj([Entry(op, Str(value))]))]))
         == Obj([Entry(field, Obj([Entry("$" + op, Str(value))]))])
  {
    AllWordChars(field);
    RewriteWord(field);
    AllWordChars(op);
    RewriteWord(op);
    AllWordChars(value);
    RewriteWord(value);
    var inner := Entry(op, Str(value));
    SingleRewritten(inner);
    SingleRewritten(Entry(field, Obj([inner])));
  }

  lemma {:induction false} SingleRewritten(e: Entry)
    ensures RewriteEntries([e]) == [Entry(Rewrite(e.key), RewriteStrings(e.value))]
  {
    assert [e][0] == e && [e][1..] == [];
  }

  lemma {:induction false} BracketWindow(e: Entry)
    requires e.key !in RemoveFields
    ensures Projection(Lookup([e], "select")) == Ok(None)
    ensures SortOrder(Lookup([e], "sort")) == Ok(DefaultSort)
    ensures WindowOf([e]).startIndex == 0 && WindowOf([e]).limit == 10
  {
    assert [e][0] == e && [e][1..] == [];
    assert "page" == RemoveFields[2] && "limit" == RemoveFields[3];
    assert Lookup([e], "page") == Lookup([], "page") == None;
    assert Lookup([e], "limit") == Lookup([], "limit") == None;
    IntParamAbsent(DefaultPage);
    IntParamAbsent(DefaultLimit);
    assert WindowOf([e]) == WindowFor(1, 10);
  }

  /**
   * `?page=2&limit=5`: the previous link is page 1 of size 5, and a next link
   * exists exactly when the collection holds more than 10 documents.
   */
  lemma {:induction false} SecondPageOfFive(filter: seq<Entry>, total: nat)
    ensures var query := [Entry("page", Str("2")), Entry("limit", Str("5"))] + filter;
      var p := PaginationOf(WindowOf(query), total);
      && p.prev == Some(PageLink(1, 5))
      && (p.next.Some? <==> total > 10)
  {
    assert Decimal(2) == "2" && Decimal(5) == "5";
    LinkReproducesWindow(PageLink(2, 5), filter);
  }

  /**
   * The next link counts the whole collection, not the matches: a filter
   * that matches nothing still gets a next link when the collection has
   * more than one page of documents.
   */
  lemma {:induction false} NextIgnoresFilter<D>(query: seq<Entry>)
    requires Lookup(query, "page").None? && Lookup(query, "limit").None?
    requires BuildQuery(query, None).Ok?
    ensures var env := Respond<D>(query, None, 11, []);
      env.Ok? && env.value.data == [] && env.value.pagination.next == Some(PageLink(2, 10))
  {
    IntParamAbsent(DefaultPage);
    IntParamAbsent(DefaultLimit);
  }

  /** Without `sort`, or with an empty one, documents come newest first. */
  lemma {:induction false} SortDefault(sort: Option<QVal>)
    requires sort == None || sort == Some(Str(""))
    ensures SortOrder(sort) == Ok("-createdAt")
  {
  }
}
