/** The list of sites ("obras"): a client-side search over name and
    description, an empty state that tells "no results" from "no sites", and
    the create affordances reserved to coordinators. */
module ObrasList {
  import opened Wrappers
  import opened Entities
  import opened JsText
  import opened Seqs

  /** The search term as the filter uses it: trimmed, then lowercased. */
  function NormalizeTerm(searchTerm: string): (term: string)
    ensures |term| == |Trim(searchTerm)|
  {
    ToLower(Trim(searchTerm))
  }

  /** An obra matches a non-empty term when its lowercased name or its
      lowercased description contains it. */
  predicate Matches(term: string, o: Obra) {
    Includes(ToLower(o.nombre), term) || Includes(ToLower(o.descripcion), term)
  }

  /** `filteredObras`: the whole list for a blank term, else the matching obras. */
  function FilteredObras(obras: seq<Obra>, searchTerm: string): (r: seq<Obra>)
    ensures NormalizeTerm(searchTerm) == [] ==> r == obras
    ensures |r| <= |obras|
  {
    var term := NormalizeTerm(searchTerm);
    if |term| == 0 then obras else Filter(obras, (o: Obra) => Matches(term, o))
  }

  /** A blank term (empty or only whitespace) keeps every obra. */
  lemma BlankTermKeepsAll(obras: seq<Obra>, searchTerm: string)
    requires forall j :: 0 <= j < |searchTerm| ==> IsWhitespace(searchTerm[j])
    ensures FilteredObras(obras, searchTerm) == obras
  {
    TrimBlank(searchTerm);
  }

  /** For a non-blank term, an obra is kept exactly when it is in the list and
      its name or description contains the normalized term. */
  lemma FilterKeepsExactlyMatches(obras: seq<Obra>, searchTerm: string, o: Obra)
    requires NormalizeTerm(searchTerm) != []
    ensures o in FilteredObras(obras, searchTerm) <==>
              o in obras &&
              (Includes(ToLower(o.nombre), NormalizeTerm(searchTerm)) ||
               Includes(ToLower(o.descripcion), NormalizeTerm(searchTerm)))
  {
    var term := NormalizeTerm(searchTerm);
    FilterMembership(obras, (x: Obra) => Matches(term, x), o);
  }

  /** The filtered list is the input with some obras deleted, order kept. */
  lemma FilteredIsSubsequence(obras: seq<Obra>, searchTerm: string)
    ensures IsSubsequence(FilteredObras(obras, searchTerm), obras)
  {
    var term := NormalizeTerm(searchTerm);
    if |term| == 0 {
      assert Select(obras, seq(|obras|, _ => true)) == obras by {
        SelectAll(obras);
      }
    } else {
      FilterIsSubsequence(obras, (o: Obra) => Matches(term, o));
    }
  }

  lemma {:induction false} SelectAll(s: seq<Obra>)
    ensures Select(s, seq(|s|, _ => true)) == s
  {
    if |s| > 0 {
      SelectAll(s[1..]);
      assert seq(|s|, _ => true)[1..] == seq(|s[1..]|, _ => true);
    }
  }

  /** Searching again with the same term changes nothing. */
  lemma FilterIdempotentOnTerm(obras: seq<Obra>, searchTerm: string)
    ensures FilteredObras(FilteredObras(obras, searchTerm), searchTerm) == FilteredObras(obras, searchTerm)
  {
    var term := NormalizeTerm(searchTerm);
    if |term| > 0 {
      FilterIdempotent(obras, (o: Obra) => Matches(term, o));
    }
  }

  /** The page's own state, each field replaced wholesale by its setter. */
  datatype ObrasPageState = ObrasPageState(searchTerm: string, isCreateModalOpen: bool)

  /** The header's search box, the empty state's clear action, and the two
      ways of opening and the one of closing the creation form. */
  datatype ObrasEvent = SearchChanged(term: string) | ClearSearch | OpenCreate | CloseCreate

  function Apply(s: ObrasPageState, e: ObrasEvent): (r: ObrasPageState)
    ensures e.SearchChanged? ==> r == s.(searchTerm := e.term)
    ensures e.ClearSearch? ==> r == s.(searchTerm := "")
    ensures e.OpenCreate? ==> r == s.(isCreateModalOpen := true)
    ensures e.CloseCreate? ==> r == s.(isCreateModalOpen := false)
  {
    match e
    case SearchChanged(t) => s.(searchTerm := t)
    case ClearSearch => s.(searchTerm := "")
    case OpenCreate => s.(isCreateModalOpen := true)
    case CloseCreate => s.(isCreateModalOpen := false)
  }

  /** What the list area shows. */
  datatype ObrasContent =
    | ObraCards(cards: seq<Obra>)
    /** "No se encontraron obras con ...", with the clear-search action. */
    | NoResults(searchTerm: string)
    /** "No hay obras registradas", with the create button for coordinators. */
    | NoObras(showCreateButton: bool)

  /** What the whole page shows. */
  datatype ObrasScreen =
    | LoadingObras
    | ObrasError(message: string)
    | ObrasShown(isCoordinador: bool, content: ObrasContent, createModalOpen: bool)

  /** `renderEmptyState`: a non-blank search term gives the no-results state,
      otherwise the no-sites state, whose create button only coordinators get. */
  function EmptyState(searchTerm: string, isCoordinador: bool): (r: ObrasContent)
    ensures |Trim(searchTerm)| > 0 ==> r == NoResults(searchTerm)
    ensures |Trim(searchTerm)| == 0 ==> r == NoObras(isCoordinador)
  {
    if |Trim(searchTerm)| > 0 then NoResults(searchTerm) else NoObras(isCoordinador)
  }

  /** The page: loading first, then the error, then the cards of the
      filtered obras or, when none is left, the empty state. */
  function Screen(isLoading: bool, error: Option<string>, obras: seq<Obra>,
                  user: Option<User>, s: ObrasPageState): (r: ObrasScreen)
    ensures isLoading ==> r == LoadingObras
    ensures !isLoading && IsTruthy(error) ==> r == ObrasError(error.value)
    ensures !isLoading && !IsTruthy(error) ==>
              r.ObrasShown? && r.isCoordinador == IsCoordinador(user) &&
              r.createModalOpen == s.isCreateModalOpen
    ensures !isLoading && !IsTruthy(error) && |FilteredObras(obras, s.searchTerm)| > 0 ==>
              r.content == ObraCards(FilteredObras(obras, s.searchTerm))
    ensures !isLoading && !IsTruthy(error) && |FilteredObras(obras, s.searchTerm)| == 0 ==>
              r.content == EmptyState(s.searchTerm, IsCoordinador(user))
  {
    if isLoading then LoadingObras
    else if IsTruthy(error) then ObrasError(error.value)
    else
      var shown := FilteredObras(obras, s.searchTerm);
      var content := if |shown| > 0 then ObraCards(shown) else EmptyState(s.searchTerm, IsCoordinador(user));
      ObrasShown(IsCoordinador(user), content, s.isCreateModalOpen)
  }

  /** The create button of the empty state is shown only to a coordinator. */
  lemma CreateButtonOnlyForCoordinador(isLoading: bool, error: Option<string>, obras: seq<Obra>,
                                       user: Option<User>, s: ObrasPageState)
    requires Screen(isLoading, error, obras, user, s) == ObrasShown(IsCoordinador(user), NoObras(true), s.isCreateModalOpen)
    ensures user.Some? && user.value.global_role == Coordinador
  {
  }

  /** No results for a non-blank term offers to clear it; clearing leaves a
      blank term, so the page then lists every obra or says there are none. */
  lemma ClearSearchShowsEverything(obras: seq<Obra>, user: Option<User>, s: ObrasPageState)
    requires Screen(false, None, obras, user, s).content.NoResults?
    ensures |Trim(s.searchTerm)| > 0
    ensures var c := Screen(false, None, obras, user, Apply(s, ClearSearch)).content;
            (|obras| > 0 ==> c == ObraCards(obras)) && (|obras| == 0 ==> c == NoObras(IsCoordinador(user)))
  {
  }

  /** With no obras at all, a blank term gives "no hay obras", never "no results". */
  lemma NoObrasWithoutSearch(user: Option<User>, s: ObrasPageState)
    requires Trim(s.searchTerm) == []
    ensures Screen(false, None, [], user, s).content == NoObras(IsCoordinador(user))
  {
  }
}
