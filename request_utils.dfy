/**
 * The request utilities: redirect construction, content negotiation on the
 * `Accept` header, and pagination bounds read from the query string.
 */
module RequestUtils {
  import opened Wrappers
  import opened Http
  import opened Errors
  import opened Text

  /** `redirect(url)`: 302 Found, a single `Location` header holding `url`, empty body. */
  function Redirect(url: string): (r: Response)
    ensures r.status == (302, "Found")
    ensures r.headers.Keys == {"Location"} && r.headers["Location"] == [url]
    ensures r.body == []
    ensures WellFormed(r)
  {
    Response((302, "Found"), map["Location" := [url]], [])
  }

  /** `iter().any(|s| s.contains(sub))` over a list of header values. */
  function AnyContains(values: seq<string>, sub: string): (r: bool)
    ensures r <==> exists i :: 0 <= i < |values| && IsSubstring(sub, values[i])
  {
    if values == [] then false
    else if Contains(values[0], sub) then true
    else
      var r := AnyContains(values[1..], sub);
      assert r ==> exists i :: 0 <= i < |values| && IsSubstring(sub, values[i]) by {
        if r {
          var i :| 0 <= i < |values| - 1 && IsSubstring(sub, values[1..][i]);
          assert values[i + 1] == values[1..][i];
        }
      }
      r
  }

  /**
   * `wants_json`: the `Accept` header is present and at least one of its values
   * contains "json". A header that is absent counts as having no values.
   */
  function WantsJson(headers: map<string, seq<string>>): (r: bool)
    ensures r <==> "Accept" in headers
                   && exists i :: 0 <= i < |headers["Accept"]| && IsSubstring("json", headers["Accept"][i])
    ensures "Accept" !in headers ==> !r
  {
    var accept := if "Accept" in headers then Some(headers["Accept"]) else None;
    AnyContains(accept.UnwrapOr([]), "json")
  }

  /** The outcome of `pagination`. */
  datatype PageResult =
    /** The window to fetch: skip `offset` rows, return at most `count`. */
    | Paged(offset: nat, count: nat)
    /** The requested limit exceeds the maximum. */
    | Refused(error: DomainError)
    /**
     * `page=0` with an admissible limit: `page - 1` underflows the unsigned
     * page number (a panic under overflow checks, a wrapped offset without them).
     */
    | PageUnderflow

  /** The message of the error for a limit above `max`. */
  function TooManyMessage(max: nat): string
  {
    "cannot request more than " + NatToString(max) + " items"
  }

  /**
   * `pagination(default, max)`. `page` and `perPage` are the query's `page` and
   * `per_page` values, `None` when missing or not an unsigned integer.
   */
  function Pagination(page: Option<nat>, perPage: Option<nat>, default: nat, max: nat): (r: PageResult)
    ensures r.Refused? <==> (if perPage.Some? then perPage.value else default) > max
    ensures r.Refused? ==> r.error == Human(TooManyMessage(max), None)
    ensures r.PageUnderflow? <==> !r.Refused? && page == Some(0)
    ensures r.Paged? ==>
              && r.count == (if perPage.Some? then perPage.value else default)
              && r.count <= max
              && r.offset == (if page.Some? then page.value - 1 else 0) * r.count
  {
    var p := page.UnwrapOr(1);
    var limit := perPage.UnwrapOr(default);
    if limit > max then Refused(NewHuman(TooManyMessage(max)))
    else if p == 0 then PageUnderflow
    else Paged((p - 1) * limit, limit)
  }

  /** With neither parameter given: the first `default` rows, when `default` is admissible. */
  lemma PaginationDefaults(default: nat, max: nat)
    requires default <= max
    ensures Pagination(None, None, default, max) == Paged(0, default)
  {
  }

  /** A limit equal to the maximum is admitted. */
  lemma PaginationAtMax(page: nat, max: nat, default: nat)
    requires page >= 1
    ensures Pagination(Some(page), Some(max), default, max) == Paged((page - 1) * max, max)
  {
  }

  /** Consecutive pages of one limit are adjacent windows: page p + 1 starts where page p ends. */
  lemma PagesAreAdjacent(page: nat, perPage: Option<nat>, default: nat, max: nat)
    requires page >= 1
    requires Pagination(Some(page), perPage, default, max).Paged?
    ensures var a := Pagination(Some(page), perPage, default, max);
            var b := Pagination(Some(page + 1), perPage, default, max);
            b.Paged? && b.count == a.count && b.offset == a.offset + a.count
  {
  }

  /** Worked cases: default 10, maximum 50. */
  lemma PaginationExamples()
    ensures Pagination(Some(3), Some(20), 10, 50) == Paged(40, 20)
    ensures Pagination(None, Some(100), 10, 50) == Refused(Human("cannot request more than 50 items", None))
    ensures Pagination(None, None, 10, 50) == Paged(0, 10)
    ensures Pagination(Some(0), Some(20), 10, 50) == PageUnderflow
    ensures Pagination(Some(0), Some(51), 10, 50).Refused?
  {
  }

  /** Worked cases of content negotiation. */
  lemma WantsJsonExamples()
    ensures WantsJson(map["Accept" := ["text/html, application/json"]])
    ensures !WantsJson(map[])
    ensures !WantsJson(map["Accept" := ["text/html"]])
  {
    var both := "text/html, application/json";
    assert OccursAt("json", both, 23);
    assert IsSubstring("json", both);
    assert !IsSubstring("json", "text/html") by {
      forall i: nat ensures !OccursAt("json", "text/html", i) {
        if i + 4 <= 9 {
          assert "text/html"[i..i + 4][0] == "text/html"[i];
        }
      }
    }
  }
}
