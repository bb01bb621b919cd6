/** The product list page: the filter record that drives the product query,
    the controls that edit it, and the favorite and delete actions. */
module Products {
  import opened Wrappers
  import opened Types
  import Platform

  datatype ProductFilters = ProductFilters(
    catalogId: Option<string>, search: Option<string>, recommendation: Option<Recommendation>,
    competitionLevel: Option<CompetitionLevel>, favoritesOnly: Option<bool>,
    minMargin: Option<real>, maxMargin: Option<real>)

  const ALL: string := "all"
  const RECOMMENDATION_OPTIONS: seq<string> := ["all", "buy", "observe", "discard"]
  const COMPETITION_OPTIONS: seq<string> := ["all", "low", "medium", "high"]

  /** The filters the page opens with: the `catalog` query parameter if it
      is a non-empty string, and an empty search. */
  function InitialFilters(catalogParam: Option<string>): (f: ProductFilters)
    ensures f.catalogId.Some? <==> catalogParam.Some? && catalogParam.value != []
    ensures f.catalogId.Some? ==> f.catalogId == catalogParam
    ensures f.search == Some([])
    ensures f.recommendation == None && f.competitionLevel == None && f.favoritesOnly == None
    ensures f.minMargin == None && f.maxMargin == None
  {
    var catalogId := if catalogParam.Some? && catalogParam.value != [] then catalogParam else None;
    ProductFilters(catalogId, Some([]), None, None, None, None, None)
  }

  /** Typing in the search box: only the search text changes. */
  function SetSearch(f: ProductFilters, text: string): (g: ProductFilters)
    ensures g.search == Some(text)
    ensures g.(search := f.search) == f
  {
    f.(search := Some(text))
  }

  function RecommendationOf(value: string): Recommendation
    requires value in RECOMMENDATION_OPTIONS && value != ALL
  {
    if value == "buy" then Buy else if value == "observe" then Observe else Discard
  }

  function CompetitionOf(value: string): CompetitionLevel
    requires value in COMPETITION_OPTIONS && value != ALL
  {
    if value == "low" then Low else if value == "medium" then Medium else High
  }

  /** Picking an entry of the recommendation select: 'all' clears the
      filter, any other entry sets it to the recommendation of that name;
      nothing else changes. */
  function SelectRecommendation(f: ProductFilters, value: string): (g: ProductFilters)
    requires value in RECOMMENDATION_OPTIONS
    ensures value == ALL ==> g.recommendation == None
    ensures value != ALL ==> g.recommendation.Some? && RecommendationName(g.recommendation.value) == value
    ensures g.(recommendation := f.recommendation) == f
  {
    f.(recommendation := if value == ALL then None else Some(RecommendationOf(value)))
  }

  /** Picking an entry of the competition select, by the same rule. */
  function SelectCompetition(f: ProductFilters, value: string): (g: ProductFilters)
    requires value in COMPETITION_OPTIONS
    ensures value == ALL ==> g.competitionLevel == None
    ensures value != ALL ==> g.competitionLevel.Some? && CompetitionName(g.competitionLevel.value) == value
    ensures g.(competitionLevel := f.competitionLevel) == f
  {
    f.(competitionLevel := if value == ALL then None else Some(CompetitionOf(value)))
  }

  /** The entry a select shows: `filters.recommendation || 'all'`. */
  function ShownRecommendation(f: ProductFilters): string
  {
    if f.recommendation.Some? then RecommendationName(f.recommendation.value) else ALL
  }

  function ShownCompetition(f: ProductFilters): string
  {
    if f.competitionLevel.Some? then CompetitionName(f.competitionLevel.value) else ALL
  }

  /** A select shows the entry last picked in it. */
  lemma SelectsShowTheirPick(f: ProductFilters, r: string, c: string)
    requires r in RECOMMENDATION_OPTIONS && c in COMPETITION_OPTIONS
    ensures ShownRecommendation(SelectRecommendation(f, r)) == r
    ensures ShownCompetition(SelectCompetition(f, c)) == c
  {
  }

  /** The favorites button: `favorites_only` becomes the negation of its
      truthiness, so an unset flag becomes true. */
  function ToggleFavoritesOnly(f: ProductFilters): (g: ProductFilters)
    ensures g.favoritesOnly.Some?
    ensures g.favoritesOnly.value <==> f.favoritesOnly != Some(true)
    ensures g.(favoritesOnly := f.favoritesOnly) == f
  {
    f.(favoritesOnly := Some(!(f.favoritesOnly == Some(true))))
  }

  /** Pressing the button twice restores a set flag, but leaves an unset
      one at false rather than unset. */
  lemma ToggleTwice(f: ProductFilters)
    ensures f.favoritesOnly.Some? ==> ToggleFavoritesOnly(ToggleFavoritesOnly(f)) == f
    ensures f.favoritesOnly.None? ==> ToggleFavoritesOnly(ToggleFavoritesOnly(f)).favoritesOnly == Some(false)
  {
    var g := ToggleFavoritesOnly(f);
    var h := ToggleFavoritesOnly(g);
    match f.favoritesOnly
    case None =>
    case Some(on) =>
      assert g.favoritesOnly == Some(!on);
      assert h.favoritesOnly == f.favoritesOnly;
      assert h == g.(favoritesOnly := h.favoritesOnly);
  }

  datatype ServiceCall = ToggleFavorite(productId: string, isFavorite: bool)
                       | DeleteProduct(productId: string)
                       | DeleteProducts(productIds: seq<string>)

  class ProductsPage {
    var selectedProducts: seq<string>
    var calls: seq<ServiceCall>
    var toasts: seq<Platform.Toast>
    var reloads: nat

    constructor ()
      ensures selectedProducts == [] && calls == [] && toasts == [] && reloads == 0
    {
      selectedProducts := [];
      calls := [];
      toasts := [];
      reloads := 0;
    }

    /** The star of a product: asks for the opposite of its current state,
        then reloads, or reports the failure. */
    method HandleToggleFavorite(productId: string, isFavorite: bool, succeeds: bool)
      modifies this
      ensures calls == old(calls) + [ToggleFavorite(productId, !isFavorite)]
      ensures succeeds ==> reloads == old(reloads) + 1 && toasts == old(toasts)
      ensures !succeeds ==> reloads == old(reloads) &&
                            toasts == old(toasts) + [Platform.ToastError("Erro ao atualizar favorito")]
      ensures selectedProducts == old(selectedProducts)
    {
      calls := calls + [ToggleFavorite(productId, !isFavorite)];
      if succeeds {
        reloads := reloads + 1;
      } else {
        toasts := toasts + [Platform.ToastError("Erro ao atualizar favorito")];
      }
    }

    /** Deleting one product, after confirmation. */
    method HandleDeleteProduct(productId: string, confirmed: bool, succeeds: bool)
      modifies this
      ensures !confirmed ==> unchanged(this)
      ensures confirmed ==> calls == old(calls) + [DeleteProduct(productId)]
      ensures confirmed && succeeds ==>
                reloads == old(reloads) + 1 && toasts == old(toasts) + [Platform.ToastSuccess("Produto deletado")]
      ensures confirmed && !succeeds ==>
                reloads == old(reloads) && toasts == old(toasts) + [Platform.ToastError("Erro ao deletar produto")]
      ensures selectedProducts == old(selectedProducts)
    {
      if !confirmed {
        return;
      }
      calls := calls + [DeleteProduct(productId)];
      if succeeds {
        toasts := toasts + [Platform.ToastSuccess("Produto deletado")];
        reloads := reloads + 1;
      } else {
        toasts := toasts + [Platform.ToastError("Erro ao deletar produto")];
      }
    }

    /** Deleting the selected products: nothing happens without a selection
        or when the confirmation is declined; a success clears the selection
        and reloads, a failure keeps it. */
    method HandleBulkDelete(confirmed: bool, succeeds: bool)
      modifies this
      ensures old(selectedProducts) == [] || !confirmed ==> unchanged(this)
      ensures old(selectedProducts) != [] && confirmed ==>
                calls == old(calls) + [DeleteProducts(old(selectedProducts))]
      ensures old(selectedProducts) != [] && confirmed && succeeds ==>
                && selectedProducts == [] && reloads == old(reloads) + 1
                && toasts == old(toasts) + [Platform.ToastSuccess("Produtos deletados")]
      ensures old(selectedProducts) != [] && confirmed && !succeeds ==>
                && selectedProducts == old(selectedProducts) && reloads == old(reloads)
                && toasts == old(toasts) + [Platform.ToastError("Erro ao deletar produtos")]
    {
      if |selectedProducts| == 0 {
        return;
      }
      if !confirmed {
        return;
      }
      calls := calls + [DeleteProducts(selectedProducts)];
      if succeeds {
        toasts := toasts + [Platform.ToastSuccess("Produtos deletados")];
        selectedProducts := [];
        reloads := reloads + 1;
      } else {
        toasts := toasts + [Platform.ToastError("Erro ao deletar produtos")];
      }
    }
  }

  /** The page as written never fills the selection: it starts empty and no
      handler adds to it, so bulk delete, even when confirmed, sends
      nothing; only the other two handlers reach the service. */
  method SelectionStaysEmpty(productId: string, isFavorite: bool, confirmed: bool, succeeds: bool)
    returns (selection: seq<string>, sent: seq<ServiceCall>)
    ensures selection == []
    ensures sent == [ToggleFavorite(productId, !isFavorite)] + (if confirmed then [DeleteProduct(productId)] else [])
  {
    var page := new ProductsPage();
    page.HandleToggleFavorite(productId, isFavorite, succeeds);
    page.HandleDeleteProduct(productId, confirmed, succeeds);
    page.HandleBulkDelete(confirmed, succeeds);
    selection := page.selectedProducts;
    sent := page.calls;
  }

  /** Bulk delete on a selection the page itself never creates (see
      `SelectionStaysEmpty`), set here directly: a failure can be retried on
      the same selection, and a second press after a success does nothing. */
  method BulkDeleteRetry(ids: seq<string>) returns (sent: seq<ServiceCall>, left: seq<string>)
    requires ids != []
    ensures sent == [DeleteProducts(ids), DeleteProducts(ids)]
    ensures left == []
  {
    var page := new ProductsPage();
    page.selectedProducts := ids;
    page.HandleBulkDelete(true, false);
    page.HandleBulkDelete(true, true);
    page.HandleBulkDelete(true, true);
    sent := page.calls;
    left := page.selectedProducts;
  }
}
