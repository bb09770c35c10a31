/**
 * The OPTIMADE panel (`OptimadePanel`): the provider, formula, exact-match
 * and page state behind the structures query, the page count, the formula
 * field's error flag, and which of table, error and spinner is shown.
 */
module OptimadePanel {
  import opened Wrappers
  import opened Text
  import opened Optimade
  import opened Paging

  /** Structures per page. */
  const PageLimit := 10

  /** The formula field's helper text while it is flagged. */
  const DisallowedFormulaText := "Disallowed formula pattern"

  /** A page of structures: the reported total (`None` when not a number)
      and the structures. */
  datatype StructuresPage<S> = StructuresPage(total: Option<int>, structures: seq<S>)

  /** The status of the structures query that the panel branches on. */
  datatype StructuresResult<S> = StructuresResult(data: Option<StructuresPage<S>>, isPreviousData: bool,
                                                  isError: bool, errorMessage: string)

  /** What is shown below the pagination. */
  datatype PanelView<S> = Table(structures: seq<S>) | ErrorAlert(message: string) | Spinner

  /** The cache key `['optimade', 'structures', provider, formulaFilter,
      exactFilter, page]`. */
  type StructuresKey = (string, string, Option<string>, Option<string>, bool, int)

  // -----------------------------------------------------------------------
  // formula field

  /** The formula field is in error when it holds a non-empty text that the
      formula pattern refuses. */
  predicate FormulaFlagged(formula: Option<string>) {
    Truthy(formula) && !FormulaAllowed(formula.value)
  }

  /** The helper text under the formula field. */
  function HelperText(formula: Option<string>): (r: Option<string>)
    ensures r.Some? <==> FormulaFlagged(formula)
    ensures r.Some? ==> r.value == DisallowedFormulaText
  {
    if Truthy(formula) && !FormulaAllowed(formula.value) then Some(DisallowedFormulaText) else None
  }

  /** The field is flagged exactly when the user typed a formula that the
      request then leaves out, so a flagged formula asks for the same
      structures as no formula at all. */
  lemma FlaggedMeansIgnored(formula: Option<string>, exact: bool, versionPath: string,
                            provider: Option<string>, page: int)
    requires Truthy(provider) ==> StructureUrl(provider.value).Some?
    ensures FormulaFlagged(formula) <==> Truthy(formula) && FilterClause(formula, exact) == ""
    ensures FormulaFlagged(formula) ==>
              StructuresRequest(versionPath, provider, formula, exact, page, PageLimit)
              == StructuresRequest(versionPath, provider, None, exact, page, PageLimit)
  {
    if FormulaFlagged(formula) {
      DisallowedFormulaIgnored(versionPath, provider, formula.value, exact, page, PageLimit);
    }
  }

  // -----------------------------------------------------------------------
  // pages and view

  /** The page count: `Math.ceil((total || pageLimit) / pageLimit)` with
      data, one without. */
  function PagesOf<S>(result: StructuresResult<S>): int {
    if result.data.Some? then
      var total := result.data.value.total;
      CeilDiv(if total.None? || total == Some(0) then PageLimit else total.value, PageLimit)
    else 1
  }

  /** Without data, or with a missing or zero total, there is one page;
      with a positive total the pages hold every structure and each offered
      page starts before the total. */
  lemma PagesCover<S>(result: StructuresResult<S>, p: int)
    ensures result.data.None? || result.data.value.total in {None, Some(0)} ==> PagesOf(result) == 1
    ensures result.data.Some? && result.data.value.total.Some? && result.data.value.total.value > 0 ==>
              var total := result.data.value.total.value;
              total <= PagesOf(result) * PageLimit
              && (1 <= p <= PagesOf(result) ==> (p - 1) * PageLimit < total)
  {
    if result.data.Some? {
      var total := result.data.value.total;
      if total.None? || total == Some(0) {
        CeilDivUnique(PageLimit, PageLimit, 1);
      } else if total.value > 0 && 1 <= p <= PagesOf(result) {
        MulMono(p - 1, PagesOf(result) - 1, PageLimit);
      }
    }
  }

  /** The view the status selects. */
  function ViewOf<S>(result: StructuresResult<S>): PanelView<S> {
    if result.data.Some? then
      if !result.isPreviousData then Table(result.data.value.structures) else Spinner
    else if result.isError then ErrorAlert(result.errorMessage)
    else Spinner
  }

  /** The table shows exactly the current data's structures; the error
      shows only without data; everything else spins. */
  lemma ViewChoice<S>(result: StructuresResult<S>)
    ensures ViewOf(result).Table? <==> result.data.Some? && !result.isPreviousData
    ensures ViewOf(result).Table? ==> ViewOf(result).structures == result.data.value.structures
    ensures ViewOf(result).ErrorAlert? <==> result.data.None? && result.isError
    ensures ViewOf(result).ErrorAlert? ==> ViewOf(result).message == result.errorMessage
  {
  }

  // -----------------------------------------------------------------------
  // state

  /** The panel's state cells. */
  class Panel {
    var provider: Option<string>
    var formulaFilter: Option<string>
    var exactFilter: bool
    var page: int

    /** No provider, no formula, no exact match, page 1. */
    constructor()
      ensures provider == None && formulaFilter == None && !exactFilter && page == 1
    {
      provider := None;
      formulaFilter := None;
      exactFilter := false;
      page := 1;
    }

    /** The key of the structures query. */
    function Key(): StructuresKey
      reads this
    {
      ("optimade", "structures", provider, formulaFilter, exactFilter, page)
    }

    /** Choosing a provider also goes back to page 1. */
    method SelectProvider(value: string)
      modifies this
      ensures provider == Some(value) && page == 1
      ensures formulaFilter == old(formulaFilter) && exactFilter == old(exactFilter)
    {
      provider := Some(value);
      page := 1;
    }

    /** Editing the formula keeps the page. */
    method SetFormula(value: string)
      modifies this
      ensures formulaFilter == Some(value)
      ensures provider == old(provider) && exactFilter == old(exactFilter) && page == old(page)
    {
      formulaFilter := Some(value);
    }

    /** Toggling exact match keeps the page. */
    method SetExact(checked: bool)
      modifies this
      ensures exactFilter == checked
      ensures provider == old(provider) && formulaFilter == old(formulaFilter) && page == old(page)
    {
      exactFilter := checked;
    }

    /** The pagination picks a page. */
    method SetPage(value: int)
      modifies this
      ensures page == value
      ensures provider == old(provider) && formulaFilter == old(formulaFilter) && exactFilter == old(exactFilter)
    {
      page := value;
    }

    /** Render for a status of the structures query: the view below the
        pagination, the page count, and whether the pagination is disabled,
        which it is exactly while previous-page data is shown. */
    method Render<S>(result: StructuresResult<S>) returns (view: PanelView<S>, pages: int, paginationDisabled: bool)
      ensures view == ViewOf(result) && pages == PagesOf(result)
      ensures paginationDisabled <==> result.isPreviousData
      ensures view.Table? ==> !paginationDisabled
    {
      view := Spinner;
      pages := 1;
      if result.data.Some? {
        var total := result.data.value.total;
        pages := CeilDiv(if total.None? || total == Some(0) then PageLimit else total.value, PageLimit);
        if !result.isPreviousData {
          view := Table(result.data.value.structures);
        }
      } else if result.isError {
        view := ErrorAlert(result.errorMessage);
      }
      paginationDisabled := result.isPreviousData;
    }

    /** The structures request for the current state. */
    method Request(client: OptimadeClient) returns (r: StructuresCall)
      requires Truthy(provider) ==> StructureUrl(provider.value).Some?
      ensures r == StructuresRequest(client.versionPath, provider, formulaFilter, exactFilter, page, PageLimit)
    {
      r := client.GetStructures(provider, formulaFilter, exactFilter, page, PageLimit);
    }
  }

  /** Every state change gives a different query key, so each combination of
      provider, formula, match and page is fetched and cached on its own. */
  lemma KeysDistinguish(a: Panel, b: Panel)
    ensures a.Key() == b.Key()
            <==> a.provider == b.provider && a.formulaFilter == b.formulaFilter
                 && a.exactFilter == b.exactFilter && a.page == b.page
  {
  }

  /** A provider chosen on a later page asks for that provider's first page. */
  method ChooseProviderOnLaterPage(panel: Panel, client: OptimadeClient, id: string)
    returns (r: StructuresCall)
    requires id != "" ==> StructureUrl(id).Some?
    modifies panel
    ensures r == StructuresRequest(client.versionPath, Some(id), old(panel.formulaFilter),
                                   old(panel.exactFilter), 1, PageLimit)
  {
    panel.SetPage(3);
    panel.SelectProvider(id);
    r := panel.Request(client);
  }
}
