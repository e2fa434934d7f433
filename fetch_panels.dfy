/**
 * The two other versions of the drafts panel, `figma-drafts-new.tsx` and
 * `figma-drafts-fixed.tsx`: the same combined list and filter, a spinner that
 * is always shown during a fetch, and a fetch that waits for the user files
 * (and, in the fixed version, for the token) to load.
 */
module FetchPanels {
  import opened Wrappers
  import opened Drafts
  import opened FigmaDrafts

  datatype Version = New | Fixed

  /** When the version's fetch effect runs. */
  predicate ShouldFetch(v: Version, userFilesLoading: bool, tokenLoading: bool) {
    match v
    case New => !userFilesLoading
    case Fixed => !userFilesLoading && !tokenLoading
  }

  /** The fixed version fetches only in states where the new version would fetch too. */
  lemma FixedGateIsStricter(userFilesLoading: bool, tokenLoading: bool)
    ensures ShouldFetch(Fixed, userFilesLoading, tokenLoading) ==> ShouldFetch(New, userFilesLoading, tokenLoading)
    ensures !tokenLoading ==> (ShouldFetch(Fixed, userFilesLoading, tokenLoading) <==> ShouldFetch(New, userFilesLoading, tokenLoading))
  {
  }

  /** The headers each version sends: none of its own in the new version, the token rule in the fixed one. */
  function PanelHeaders(v: Version, token: Option<string>): (r: map<string, string>)
    ensures v == New ==> r == map[]
    ensures v == Fixed ==> ("x-figma-token" in r <==> Truthy(token))
  {
    match v
    case New => map[]
    case Fixed => RequestHeaders(token)
  }

  class Panel {
    var drafts: seq<Draft>
    var loading: bool
    var error: Option<string>

    constructor()
      ensures drafts == [] && loading && error.None?
    {
      drafts := [];
      loading := true;
      error := None;
    }

    /** The start of `fetchDrafts`: spinner on, error cleared. */
    method BeginFetch()
      modifies this
      ensures loading && error.None? && drafts == old(drafts)
    {
      loading := true;
      error := None;
    }

    /**
     * The end of `fetchDrafts`: a success shows the combined list, a failure
     * keeps the previous list and shows its message; the spinner goes off
     * either way.
     */
    method CompleteFetch(userFiles: seq<Draft>, outcome: FetchOutcome)
      modifies this
      ensures !loading
      ensures outcome.Fetched? ==> drafts == Combine(userFiles, outcome.drafts.GetOr([])) && error == old(error)
      ensures !outcome.Fetched? ==> drafts == old(drafts) && error == Some(FailureMessage(outcome))
    {
      if outcome.Fetched? {
        drafts := Combine(userFiles, outcome.drafts.GetOr([]));
      } else {
        error := Some(FailureMessage(outcome));
      }
      loading := false;
    }

    /**
     * The fetch effect of a version: nothing happens while what it waits for
     * is loading; otherwise a whole fetch runs and ends with the spinner off.
     */
    method Refresh(v: Version, userFilesLoading: bool, tokenLoading: bool, userFiles: seq<Draft>, outcome: FetchOutcome)
      modifies this
      ensures !ShouldFetch(v, userFilesLoading, tokenLoading) ==>
                drafts == old(drafts) && loading == old(loading) && error == old(error)
      ensures ShouldFetch(v, userFilesLoading, tokenLoading) ==> !loading
      ensures ShouldFetch(v, userFilesLoading, tokenLoading) && outcome.Fetched? ==>
                drafts == Combine(userFiles, outcome.drafts.GetOr([])) && error.None?
      ensures ShouldFetch(v, userFilesLoading, tokenLoading) && !outcome.Fetched? ==>
                drafts == old(drafts) && error == Some(FailureMessage(outcome))
    {
      if ShouldFetch(v, userFilesLoading, tokenLoading) {
        BeginFetch();
        CompleteFetch(userFiles, outcome);
      }
    }
  }
}
