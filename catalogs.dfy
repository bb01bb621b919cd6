/** The catalog list page: the badge each analysis status shows, the
    actions its menu offers, whether its progress bar is drawn, and what
    choosing an action does. */
module Catalogs {
  import opened Wrappers
  import opened Types
  import Platform

  datatype Variant = Default | Secondary | Destructive | Outline
  datatype StatusStyle = StatusStyle(badge: string, variant: Variant)

  /** `statusConfig`, defined for every status. */
  function StatusConfig(s: CatalogStatus): StatusStyle
  {
    match s
    case Pending => StatusStyle("Aguardando", Secondary)
    case Extracting => StatusStyle("Extraindo", Default)
    case Analyzing => StatusStyle("Analisando", Default)
    case Completed => StatusStyle("Concluído", Outline)
    case Paused => StatusStyle("Pausado", Secondary)
    case Failed => StatusStyle("Erro", Destructive)
  }

  /** Every status has a badge of its own, and only a failure is drawn as
      destructive. */
  lemma StatusBadgesDistinguishStatuses(s: CatalogStatus, t: CatalogStatus)
    ensures StatusConfig(s).badge == StatusConfig(t).badge <==> s == t
    ensures StatusConfig(s).variant == Destructive <==> s == Failed
  {
    if s != t {
      var a, b := StatusConfig(s).badge, StatusConfig(t).badge;
      assert |a| != |b| || a[0] != b[0] || a[1] != b[1];
    }
  }

  datatype Action = ViewDetails | Pause | Resume | Reanalyze | Delete

  /** The entries of a catalog's menu, top to bottom: details first and
      delete last for every status; pause only while analyzing, resume only
      when paused, reanalyze only when completed. */
  function MenuActions(s: CatalogStatus): (actions: seq<Action>)
    ensures 2 <= |actions| <= 3
    ensures actions[0] == ViewDetails && actions[|actions| - 1] == Delete
    ensures Pause in actions <==> s == Analyzing
    ensures Resume in actions <==> s == Paused
    ensures Reanalyze in actions <==> s == Completed
  {
    [ViewDetails]
    + (if s == Analyzing then [Pause] else [])
    + (if s == Paused then [Resume] else [])
    + (if s == Completed then [Reanalyze] else [])
    + [Delete]
  }

  /** The progress bar is drawn for every status but completed and failed. */
  predicate ShowsProgress(s: CatalogStatus)
  {
    s != Completed && s != Failed
  }

  /** A status offers neither pause, resume nor reanalyze exactly when it is
      still extracting or waiting, or has failed; each of those three
      statuses still shows progress except the failed one. */
  lemma OnlyDetailsAndDelete(s: CatalogStatus)
    ensures |MenuActions(s)| == 2 <==> s == Pending || s == Extracting || s == Failed
    ensures |MenuActions(s)| == 2 ==> (ShowsProgress(s) <==> s != Failed)
  {
  }

  /** The progress bar and the menu agree: a catalog that can be reanalyzed
      shows no progress, one that can be paused or resumed always does, and
      the bar is hidden only for finished catalogs. */
  lemma ProgressMatchesActions(s: CatalogStatus)
    ensures Reanalyze in MenuActions(s) ==> !ShowsProgress(s)
    ensures Pause in MenuActions(s) || Resume in MenuActions(s) ==> ShowsProgress(s)
    ensures !ShowsProgress(s) <==> s == Completed || s == Failed
  {
  }

  datatype ServiceCall = DeleteCatalog(id: string) | PauseAnalysis(id: string)
                       | ResumeAnalysis(id: string) | ReanalyzeCatalog(id: string)

  /** What choosing an action leads to: an optional service call, the
      message shown, whether the list is reloaded, and an optional
      navigation. */
  datatype Effect = Effect(call: Option<ServiceCall>, toast: Option<Platform.Toast>, reload: bool, push: Option<string>)

  predicate NeedsConfirm(a: Action)
  {
    a == Delete || a == Reanalyze
  }

  /** Choosing `a` on catalog `id`: delete and reanalyze first ask for
      confirmation and do nothing when it is declined; a call that succeeds
      is followed by a success message and a reload, one that fails by an
      error message only. Details just navigate. */
  function Choose(a: Action, id: string, confirmed: bool, succeeds: bool): (e: Effect)
    ensures NeedsConfirm(a) && !confirmed ==> e == Effect(None, None, false, None)
    ensures a == ViewDetails ==> e == Effect(None, None, false, Some("/catalogs/" + id))
    ensures a != ViewDetails && (confirmed || !NeedsConfirm(a)) ==>
              && e.call.Some? && e.call.value.id == id
              && e.reload == succeeds && e.push == None
              && e.toast.Some? && (e.toast.value.ToastSuccess? <==> succeeds)
    ensures a == Delete && confirmed ==>
              && e.call == Some(DeleteCatalog(id))
              && e.toast == Some(if succeeds then Platform.ToastSuccess("Catálogo deletado com sucesso")
                                 else Platform.ToastError("Erro ao deletar catálogo"))
    ensures a == Pause ==>
              && e.call == Some(PauseAnalysis(id))
              && e.toast == Some(if succeeds then Platform.ToastSuccess("Análise pausada")
                                 else Platform.ToastError("Erro ao pausar análise"))
    ensures a == Resume ==>
              && e.call == Some(ResumeAnalysis(id))
              && e.toast == Some(if succeeds then Platform.ToastSuccess("Análise retomada")
                                 else Platform.ToastError("Erro ao retomar análise"))
    ensures a == Reanalyze && confirmed ==>
              && e.call == Some(ReanalyzeCatalog(id))
              && e.toast == Some(if succeeds then Platform.ToastSuccess("Reanálise iniciada")
                                 else Platform.ToastError("Erro ao iniciar reanálise"))
  {
    match a
    case ViewDetails => Effect(None, None, false, Some("/catalogs/" + id))
    case Delete =>
      if !confirmed then Effect(None, None, false, None)
      else Settle(DeleteCatalog(id), succeeds, "Catálogo deletado com sucesso", "Erro ao deletar catálogo")
    case Pause => Settle(PauseAnalysis(id), succeeds, "Análise pausada", "Erro ao pausar análise")
    case Resume => Settle(ResumeAnalysis(id), succeeds, "Análise retomada", "Erro ao retomar análise")
    case Reanalyze =>
      if !confirmed then Effect(None, None, false, None)
      else Settle(ReanalyzeCatalog(id), succeeds, "Reanálise iniciada", "Erro ao iniciar reanálise")
  }

  function Settle(call: ServiceCall, succeeds: bool, success: string, failure: string): Effect
  {
    if succeeds then Effect(Some(call), Some(Platform.ToastSuccess(success)), true, None)
    else Effect(Some(call), Some(Platform.ToastError(failure)), false, None)
  }

  /** The call an offered action makes matches it: pausing only ever pauses
      a catalog that is being analyzed, resuming one that is paused,
      reanalyzing one that is completed. */
  lemma OfferedCallsMatchStatus(s: CatalogStatus, a: Action, id: string, succeeds: bool)
    requires a in MenuActions(s)
    ensures Choose(a, id, true, succeeds).call.Some? && Choose(a, id, true, succeeds).call.value.PauseAnalysis? ==> s == Analyzing
    ensures Choose(a, id, true, succeeds).call.Some? && Choose(a, id, true, succeeds).call.value.ResumeAnalysis? ==> s == Paused
    ensures Choose(a, id, true, succeeds).call.Some? && Choose(a, id, true, succeeds).call.value.ReanalyzeCatalog? ==> s == Completed
  {
  }
}
