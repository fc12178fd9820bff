/**
 * The profile page of a loner: the user query's 404 handling, the three
 * paginated space lists (trending, recent, moderating), each rebuilt from all
 * fetched pages whenever a page arrives, and the owner check that shows the
 * edit control.
 *
 * The queries themselves (`getUser`, `listSpaces`) and react-query's caching
 * are not modelled: fetched pages and error statuses arrive as inputs, and
 * the session's stored user id is a parameter.
 */
module ProfilePage {
  import opened Nullable
  import opened JsText
  import opened Paging
  import opened Sequences

  /** A space as listed on the page; its fields are shown, never inspected. */
  datatype SpaceSummary = SpaceSummary(id: int, name: string, tagLine: string, icon: string)

  /** The page's copy of the loner's profile; `id` is `null` until loaded. */
  datatype LonerData = LonerData(id: Option<int>, name: string, avatar: string, tagLine: string)

  // ---- page flattening ----

  /** The `results` of the pages, in page order. */
  function Flatten<T>(pages: seq<Page<T>>): seq<T> {
    if pages == [] then [] else Flatten(pages[..|pages| - 1]) + pages[|pages| - 1].results
  }

  /** The number of results over all pages, counted from the first page. */
  function TotalResults<T>(pages: seq<Page<T>>): nat {
    if pages == [] then 0 else |pages[0].results| + TotalResults(pages[1..])
  }

  lemma {:induction false} TotalResultsAppend<T>(pages: seq<Page<T>>, p: Page<T>)
    ensures TotalResults(pages + [p]) == TotalResults(pages) + |p.results|
    decreases |pages|
  {
    if pages != [] {
      assert (pages + [p])[1..] == pages[1..] + [p];
      TotalResultsAppend(pages[1..], p);
    }
  }

  /** The flattened list holds exactly as many entries as the pages hold
      results. */
  lemma {:induction false} FlattenLength<T>(pages: seq<Page<T>>)
    ensures |Flatten(pages)| == TotalResults(pages)
    decreases |pages|
  {
    if pages != [] {
      var init := pages[..|pages| - 1];
      FlattenLength(init);
      assert pages == init + [pages[|pages| - 1]];
      TotalResultsAppend(init, pages[|pages| - 1]);
    }
  }

  /** One more page adds its results at the end. */
  lemma FlattenSnoc<T>(pages: seq<Page<T>>, p: Page<T>)
    ensures Flatten(pages + [p]) == Flatten(pages) + p.results
  {
    assert (pages + [p])[..|pages|] == pages;
  }

  /** Flattening two runs of pages is flattening each and concatenating. */
  lemma {:induction false} FlattenAppend<T>(ps: seq<Page<T>>, qs: seq<Page<T>>)
    ensures Flatten(ps + qs) == Flatten(ps) + Flatten(qs)
    decreases |qs|
  {
    if qs == [] {
      assert ps + qs == ps;
    } else {
      var init, last := qs[..|qs| - 1], qs[|qs| - 1];
      assert qs == init + [last];
      assert ps + qs == (ps + init) + [last];
      FlattenSnoc(ps + init, last);
      FlattenSnoc(init, last);
      FlattenAppend(ps, init);
      ConcatAssoc(Flatten(ps), Flatten(init), last.results);
    }
  }

  lemma FlattenSingle<T>(p: Page<T>)
    ensures Flatten([p]) == p.results
  {
    assert [p][..0] == [];
  }

  /** The first page's results come first. */
  lemma FlattenCons<T>(pages: seq<Page<T>>)
    requires pages != []
    ensures Flatten(pages) == pages[0].results + Flatten(pages[1..])
  {
    assert pages == [pages[0]] + pages[1..];
    FlattenAppend([pages[0]], pages[1..]);
    FlattenSingle(pages[0]);
  }

  /** The flattened list is the pages before `k`, then page `k`, then the
      pages after it. */
  lemma FlattenSplit<T>(pages: seq<Page<T>>, k: nat)
    requires k < |pages|
    ensures Flatten(pages) == Flatten(pages[..k]) + pages[k].results + Flatten(pages[k + 1..])
  {
    var before, rest := pages[..k], pages[k..];
    assert pages == before + rest;
    FlattenAppend(before, rest);
    FlattenCons(rest);
    assert rest[0] == pages[k] && rest[1..] == pages[k + 1..];
  }

  /** Result `j` of page `k` sits in the flattened list right after the
      results of the pages before `k`: each page's order is kept and pages
      follow one another in order. */
  lemma FlattenPosition<T>(pages: seq<Page<T>>, k: nat, j: nat)
    requires k < |pages| && j < |pages[k].results|
    ensures TotalResults(pages[..k]) + j < |Flatten(pages)|
    ensures Flatten(pages)[TotalResults(pages[..k]) + j] == pages[k].results[j]
  {
    var before, mid, after := Flatten(pages[..k]), pages[k].results, Flatten(pages[k + 1..]);
    FlattenSplit(pages, k);
    FlattenLength(pages[..k]);
    IndexMiddle(before, mid, after, j);
  }

  /** An `onSuccess` handler's nested `forEach` loops: every result of every
      page pushed, in order, onto a fresh array. */
  method FlattenPages<T>(pages: seq<Page<T>>) returns (list: seq<T>)
    ensures list == Flatten(pages)
  {
    list := [];
    var i := 0;
    while i < |pages|
      invariant 0 <= i <= |pages|
      invariant list == Flatten(pages[..i])
    {
      var results := pages[i].results;
      var j := 0;
      while j < |results|
        invariant 0 <= j <= |results|
        invariant list == Flatten(pages[..i]) + results[..j]
      {
        list := list + [results[j]];
        j := j + 1;
      }
      assert pages[..i + 1][..i] == pages[..i];
      i := i + 1;
    }
    assert pages[..|pages|] == pages;
  }

  // ---- the owner check ----

  /** `userid == lonerData.id`: loose equality between the stored session id
      (a string, or `null` when absent) and the loaded id (a number, or
      `null` before loading). `null == null` holds; a string equals a number
      when it converts to it. */
  function LooseEqualsId(userId: Option<string>, id: Option<int>): bool {
    match (userId, id)
    case (None, None) => true
    case (Some(s), Some(n)) => StringToNumber(s) == Num(n)
    case _ => false
  }

  /** Whether the edit control is rendered, as written: only under a `loner`
      route parameter, and when the stored id loosely equals the loaded id. */
  function EditControlVisible(loner: Option<string>, userId: Option<string>, id: Option<int>): bool {
    loner.Some? && loner.value != "" && LooseEqualsId(userId, id)
  }

  /** As written, a visitor with no stored session id sees the edit control
      on any profile whose data has not loaded (or failed to load with a
      status other than 404), because `null == null`. */
  lemma EditControlNullCounterexample(loner: string)
    requires loner != ""
    ensures EditControlVisible(Some(loner), None, None)
  {
  }

  /** The owner check as intended: a stored id that names the loaded loner. */
  function IntendedEditControlVisible(loner: Option<string>, userId: Option<string>, id: Option<int>): bool {
    loner.Some? && loner.value != "" && userId.Some? && id.Some? &&
    StringToNumber(userId.value) == Num(id.value)
  }

  /** The intended check needs a signed-in session and a loaded loner, and
      for a session id stored as the decimal text of a number it shows the
      control exactly when that number is the loner's id. */
  lemma IntendedEditControlOwnerOnly(loner: Option<string>, userId: Option<string>, id: Option<int>)
    ensures IntendedEditControlVisible(loner, userId, id) ==>
              userId.Some? && id.Some? && EditControlVisible(loner, userId, id)
    ensures forall n: nat :: userId == Some(NatToDecimal(n)) && loner.Some? && loner.value != "" && id.Some? ==>
              (IntendedEditControlVisible(loner, userId, id) <==> id.value == n)
  {
    forall n: nat | userId == Some(NatToDecimal(n))
      ensures StringToNumber(userId.value) == Num(n)
    {
      StringToNumberOfDecimal(n);
    }
  }

  // ---- the page's state ----

  class LonerPage {
    var enabled: bool
    var show404Page: bool
    var lonerData: LonerData
    var trendingSpaces: seq<SpaceSummary>
    var recentSpaces: seq<SpaceSummary>
    var moderatingSpaces: seq<SpaceSummary>

    constructor ()
      ensures !enabled && !show404Page
      ensures lonerData == LonerData(None, "", "", "")
      ensures trendingSpaces == [] && recentSpaces == [] && moderatingSpaces == []
    {
      enabled := false;
      show404Page := false;
      lonerData := LonerData(None, "", "", "");
      trendingSpaces := [];
      recentSpaces := [];
      moderatingSpaces := [];
    }

    /** The effect on the `loner` route parameter: a non-empty parameter
        enables the queries, and nothing disables them again. */
    method OnRouteParam(loner: Option<string>)
      modifies this`enabled
      ensures enabled == (old(enabled) || (loner.Some? && loner.value != ""))
    {
      if loner.Some? && loner.value != "" {
        enabled := true;
      }
    }

    /** The user query's `onSuccess`. */
    method OnUserLoaded(id: int, name: string, avatar: string, tagLine: string)
      modifies this`lonerData
      ensures lonerData == LonerData(Some(id), name, avatar, tagLine)
    {
      lonerData := LonerData(Some(id), name, avatar, tagLine);
    }

    /** The user query's `onError` with the response's status: a 404 shows
        the not-found page; any other status changes nothing. */
    method OnUserError(status: int)
      modifies this`show404Page
      ensures show404Page == (old(show404Page) || status == 404)
    {
      if status == 404 {
        show404Page := true;
      }
    }

    /** The trending list's `onSuccess`: the list is replaced by all fetched
        pages flattened, whatever it held before. */
    method OnTrendingPages(pages: seq<Page<SpaceSummary>>)
      modifies this`trendingSpaces
      ensures trendingSpaces == Flatten(pages)
    {
      trendingSpaces := FlattenPages(pages);
    }

    /** The recent list's `onSuccess`. */
    method OnRecentPages(pages: seq<Page<SpaceSummary>>)
      modifies this`recentSpaces
      ensures recentSpaces == Flatten(pages)
    {
      recentSpaces := FlattenPages(pages);
    }

    /** The moderating list's `onSuccess`. */
    method OnModeratingPages(pages: seq<Page<SpaceSummary>>)
      modifies this`moderatingSpaces
      ensures moderatingSpaces == Flatten(pages)
    {
      moderatingSpaces := FlattenPages(pages);
    }

    /** Whether the page renders the edit control for the stored session id:
        the not-found page replaces the whole view, and otherwise the owner
        check decides, corrected to need both ids (as written, see
        `EditControlVisible`). */
    function ShowsEditControl(loner: Option<string>, userId: Option<string>): (b: bool)
      reads this
      ensures b ==> !show404Page && loner.Some? && userId.Some? && lonerData.id.Some?
      ensures b ==> StringToNumber(userId.value) == Num(lonerData.id.value)
      ensures b ==> EditControlVisible(loner, userId, lonerData.id)
    {
      !show404Page && IntendedEditControlVisible(loner, userId, lonerData.id)
    }
  }
}
